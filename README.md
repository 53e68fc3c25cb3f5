# mig-ui: S3 storage form and plan migrations page

A Dafny model of two pieces of decision logic in the migration console's
web front end:

- **The S3 replication-repository form** (module `S3Form`). It covers the initial
  form values built from the props (`mapPropsToValues`) and the synchronous
  validation (`validate`), which fills a field-name → message record key by key.
  Later writes overwrite earlier ones. It also covers the submit handler and the
  two "hidden" toggles that mask the access-key and secret inputs. The form's
  helper checks are defined elsewhere in the application: the DNS-1123 name test
  and its message, the provider-specific bucket-name test, and the URL test. The
  model makes them the fields of a `Checks` value passed to `Validate`, so no
  rule is assumed about them.
- **The plan migrations page** (module `MigrationsPage`). The page looks up the
  plan named by the route, taking the first plan in the list with that name. It
  redirects every nested route to `/` when there is none. It builds the kebab
  menu's Stage, Migrate and Rollback items, whose `isDisabled` values are
  JavaScript `||` chains over six status flags. A missing flag defaults to
  `null`. The model keeps those values as JavaScript values (`JsNull` or a
  boolean), with JavaScript's truthiness. Each chain is proved equivalent to a
  plain boolean predicate. The elements of all three routes are built before
  the router picks one. The list route's elements read the found plan's
  `isPlanLocked` without checking that the plan has a status. So a found plan
  without a status makes every route fail, and the model renders that failure
  as `StatusMissingError`.

The form code is imperative: `Validate` and `MapPropsToValues` are methods that
assign step by step, and the toggle and submit state are classes. The page code
is pure: it is modelled as functions.

Module `Wrappers` holds the `Option` type. It stands for a JavaScript value that
may be `undefined` or `null`.

## Model

| member | source | states |
|---|---|---|
| `S3Form.OrEmpty` | src/app/home/pages/StoragesPage/components/AddEditStorageModal/ProviderForms/S3Form.tsx:306-311 | `stored \|\| ''` returns the stored string unchanged, including `''`. A missing value gives `''`. |
| `S3Form.OrNull` | src/app/home/pages/StoragesPage/components/AddEditStorageModal/ProviderForms/S3Form.tsx:313 | `stored \|\| null` keeps a non-empty string. An empty or missing value becomes `null`. |
| `S3Form.MapPropsToValues` | src/app/home/pages/StoragesPage/components/AddEditStorageModal/ProviderForms/S3Form.tsx:292-317 | `bslProvider` is always the `provider` prop. Without stored values, every string field is `''`, SSL is required and the CA bundle is `''`. With stored values, each string field is copied, and a missing one becomes `''`. `requireSSL` is the stored flag or `isAWS`, so it is always true for AWS. An empty or missing CA bundle becomes `null`. |
| `S3Form.Validate` | src/app/home/pages/StoragesPage/components/AddEditStorageModal/ProviderForms/S3Form.tsx:319-363 | Only name, bucket name, endpoint, access key and secret are ever flagged. An empty name is "Required". A name failing the DNS-1123 test gets that test's message, and a passing name is not flagged. An empty bucket name is "Required", whatever the provider check says. A non-empty bucket name is flagged exactly when the provider check returns a message, and then with that message. A non-empty endpoint is flagged "S3 Endpoint must be a valid URL." exactly when the URL test fails, for AWS as well. An empty endpoint is "Required" exactly when the provider is not AWS. Each credential is "Required" exactly when it is empty. The record is empty exactly when `IsValid` holds. |
| `S3Form.SubmitBag.HandleSubmit` | src/app/home/pages/StoragesPage/components/AddEditStorageModal/ProviderForms/S3Form.tsx:365-369 | Submitting clears the submitting flag. It calls the caller's callback once, with exactly the submitted values. |
| `S3Form.InputType` | src/app/home/pages/StoragesPage/components/AddEditStorageModal/ProviderForms/S3Form.tsx:200 | A credential input is of type `password` exactly when its hidden flag is set, and `text` otherwise. The secret input at line 224 uses the same rule. |
| `S3Form.CredentialVisibility.constructor` | src/app/home/pages/StoragesPage/components/AddEditStorageModal/ProviderForms/S3Form.tsx:75-82 | Both credentials start hidden, so both inputs start as `password`. |
| `S3Form.CredentialVisibility.ToggleAccessKeyHidden` | src/app/home/pages/StoragesPage/components/AddEditStorageModal/ProviderForms/S3Form.tsx:77-81 | Flips the access-key flag and so its input type. The secret flag is unchanged. |
| `S3Form.CredentialVisibility.ToggleSecretHidden` | src/app/home/pages/StoragesPage/components/AddEditStorageModal/ProviderForms/S3Form.tsx:83-87 | Flips the secret flag and so its input type. The access-key flag is unchanged. |
| `MigrationsPage.JsOr` | src/app/home/pages/PlansPage/pages/MigrationsPage/MigrationsPage.tsx:83-90 | JavaScript `a \|\| b` returns one of its operands. The result is truthy exactly when one of the operands is. |
| `MigrationsPage.JsNot` | src/app/home/pages/PlansPage/pages/MigrationsPage/MigrationsPage.tsx:85 | `!a` is a boolean, and it is true exactly when `a` is not truthy. |
| `MigrationsPage.Destructured` | src/app/home/pages/PlansPage/pages/MigrationsPage/MigrationsPage.tsx:68-75 | A missing flag reads as `null`. A flag is truthy exactly when it is present and true. |
| `MigrationsPage.StageDisabled` | src/app/home/pages/PlansPage/pages/MigrationsPage/MigrationsPage.tsx:83-107 | The Stage and Migrate `isDisabled` value is truthy exactly when closed ∨ ¬ready ∨ error ∨ running ∨ finalComplete ∨ locked. |
| `MigrationsPage.RollbackDisabled` | src/app/home/pages/PlansPage/pages/MigrationsPage/MigrationsPage.tsx:117-123 | The Rollback `isDisabled` value is truthy exactly when closed ∨ ¬ready ∨ error ∨ running ∨ locked. |
| `MigrationsPage.RollbackDisabledImpliesStageDisabled` | src/app/home/pages/PlansPage/pages/MigrationsPage/MigrationsPage.tsx:83-123 | When Rollback is disabled, Stage (and Migrate) are disabled too. |
| `MigrationsPage.StageRollbackDiffer` | src/app/home/pages/PlansPage/pages/MigrationsPage/MigrationsPage.tsx:83-123 | Stage and Rollback differ exactly when the final migration is complete and no other term holds. |
| `MigrationsPage.MissingReadyDisablesAll` | src/app/home/pages/PlansPage/pages/MigrationsPage/MigrationsPage.tsx:68-123 | A missing ready flag disables all three actions. |
| `MigrationsPage.MissingFlagCountsAsFalse` | src/app/home/pages/PlansPage/pages/MigrationsPage/MigrationsPage.tsx:68-123 | A missing closed, error, running, final-complete or locked flag has the same effect as `false`, for Stage (and Migrate) and for Rollback. |
| `MigrationsPage.FirstMatchIndex` | src/app/home/pages/PlansPage/pages/MigrationsPage/MigrationsPage.tsx:52-54 | Gives the index of the first plan with the route's name, or the list length when no plan has it. No earlier plan matches. |
| `MigrationsPage.FindPlan` | src/app/home/pages/PlansPage/pages/MigrationsPage/MigrationsPage.tsx:52-54 | The lookup gives `undefined` exactly when no plan has the route's name. This includes a missing route parameter (`null`). Otherwise it gives a matching plan of the list with no match before it. |
| `MigrationsPage.FindPlanAppend` | src/app/home/pages/PlansPage/pages/MigrationsPage/MigrationsPage.tsx:52-54 | In a concatenated list, a match in the front part decides the lookup. Otherwise the back part decides it. |
| `MigrationsPage.KebabItems` | src/app/home/pages/PlansPage/pages/MigrationsPage/MigrationsPage.tsx:65-130 | Without a plan status, the menu is empty. Otherwise it holds exactly Stage, Migrate and Rollback, in that order. Stage and Migrate share one disabled value, and each item is disabled exactly under its blocking predicate. |
| `MigrationsPage.Select` | src/app/home/pages/PlansPage/pages/MigrationsPage/MigrationsPage.tsx:76-126 | Choosing any item closes the kebab menu. Stage requests a stage run of this plan. Migrate and Rollback open their own dialogs. |
| `MigrationsPage.ToggleKebab` | src/app/home/pages/PlansPage/pages/MigrationsPage/MigrationsPage.tsx:168 | The kebab toggle negates the open flag. The flag starts closed (`InitialKebabIsOpen`, line 62). |
| `MigrationsPage.Render` | src/app/home/pages/PlansPage/pages/MigrationsPage/MigrationsPage.tsx:133-225 | Each route (list, migration detail, step detail) redirects exactly when no plan has the route's name, and the only redirect target is `/`. When the first plan with that name has no status, every route fails with a TypeError, because line 182 reads `plan.PlanStatus.isPlanLocked` without a guard. Otherwise the list route shows exactly that first plan and its kebab items. The migration-detail and step-detail routes show their detail pages for the route's migration ID and step name; this page hands them no plan. |

## Left out

- The rendered markup is not modelled: layout, breadcrumbs, labels, helper texts, the table and the modal dialogs. The fields that are shown only for non-AWS providers (lines 157 and 229 of `S3Form.tsx`) and the CA-bundle upload that appears only when SSL is required (line 251) are not modelled either. All of this is presentation over a component library.
- The form library's machinery is not modelled. This covers change and blur handlers, the touched flags that gate the display of errors, and the wiring that calls `validate` and `handleSubmit`. The enable rules of the submit and check-connection buttons come from `common/add_edit_state`, which is not part of this model.
- The bodies of `testDNS1123`, `DNS1123Error`, `testS3Name` and `testURL` are not modelled. They are arbitrary functions in `Checks`, and nothing is assumed about their rules.
- The base64 encoding of an uploaded CA bundle (`btoa`, line 257 of `S3Form.tsx`) is a browser call and is not modelled.
- `checkConnection`, the Redux store (`getPlansWithStatus`, which computes the status flags), the `runStageRequest` dispatch and the router hooks are external. A plan's status, the plan list and the route's plan name are inputs. A stage run is an `Effect` value.
- The modal hooks (`useOpenModal`) are not part of this model. Choosing Migrate or Rollback yields a toggle effect rather than a new modal state.
- React state updates are modelled as immediate. `setIsAccessKeyHidden(!isAccessKeyHidden)` reads the rendered value, so two clicks within one render would both set the same value. The model does not capture this. `preventDefault` and `stopPropagation` are DOM calls and are left out.
- A plan is reduced to its MigPlan name and status. Its migrations list only feeds the table and is left out.
- `MigrationsPage.Select` models the click handler whether or not the item is disabled. Whether a disabled item fires its handler is decided by the component library.
- Stored form values that are not strings (or, for `requireSSL`, not booleans) are not modelled. For these, the source's `||` would use their JavaScript truthiness.
