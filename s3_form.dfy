/**
 * The S3 replication-repository form: its initial values, its synchronous
 * validation, its submit handler and the two "hidden" toggles of the
 * credential inputs.
 *
 * The helper checks the form calls (a DNS-1123 name test and its message,
 * the provider-specific bucket-name test, the URL test) live in other
 * modules of the application; here they are the fields of a `Checks` value
 * that every validation receives, so nothing is assumed about them.
 */
module S3Form {
  import opened Wrappers

  /** The keys of the form-values record (and so of the errors record). */
  datatype Field =
    | Name | AwsBucketName | AwsBucketRegion | AccessKey | Secret
    | S3Url | BslProvider | RequireSSL | CaBundle

  /** The form-values record. `caBundle` is `None` where the form stores JavaScript `null`. */
  datatype FormValues = FormValues(
    name: string,
    awsBucketName: string,
    awsBucketRegion: string,
    accessKey: string,
    secret: string,
    s3Url: string,
    bslProvider: string,
    requireSSL: bool,
    caBundle: Option<string>)

  /**
   * The values of a storage being edited, as the caller hands them in.
   * Every field may be missing (`undefined` or `null`), which is `None`.
   */
  datatype StoredValues = StoredValues(
    name: Option<string>,
    awsBucketName: Option<string>,
    awsBucketRegion: Option<string>,
    accessKey: Option<string>,
    secret: Option<string>,
    s3Url: Option<string>,
    requireSSL: Option<bool>,
    caBundle: Option<string>)

  /** The helper checks `validate` calls, whose rules are defined elsewhere. */
  datatype Checks = Checks(
    testDNS1123: string -> bool,
    dns1123Error: string -> string,
    testS3Name: string -> string,
    testURL: string -> bool)

  const Required: string := "Required"
  const InvalidUrl: string := "S3 Endpoint must be a valid URL."

  /** The fields `validate` may ever flag. */
  const ValidatedFields: set<Field> := {Name, AwsBucketName, S3Url, AccessKey, Secret}

  // ---------------------------------------------------------------------------
  // Initial values
  // ---------------------------------------------------------------------------

  /** `stored || ''` on a string-or-missing value: the empty string is falsy, so it falls back to itself. */
  function OrEmpty(stored: Option<string>): (r: string)
    ensures stored.Some? ==> r == stored.value
    ensures stored.None? ==> r == ""
  {
    if stored.Some? && stored.value != "" then stored.value else ""
  }

  /** `stored || null` on a string-or-missing value: the empty string becomes `null`. */
  function OrNull(stored: Option<string>): (r: Option<string>)
    ensures r.Some? <==> stored.Some? && stored.value != ""
    ensures r.Some? ==> r == stored
  {
    if stored.Some? && stored.value != "" then stored else None
  }

  /**
   * The initial form values: defaults first, then, when the caller passes
   * stored values, each field overwritten from them.
   */
  method MapPropsToValues(initialStorageValues: Option<StoredValues>, provider: string, isAWS: bool)
    returns (values: FormValues)
    // the provider is never taken from the stored values
    ensures values.bslProvider == provider
    // with nothing stored: empty strings, SSL required, an empty CA bundle
    ensures initialStorageValues.None? ==>
      && values.name == "" && values.awsBucketName == "" && values.awsBucketRegion == ""
      && values.accessKey == "" && values.secret == "" && values.s3Url == ""
      && values.requireSSL && values.caBundle == Some("")
    // with stored values: every string field copied, missing ones empty
    ensures initialStorageValues.Some? ==>
      var stored := initialStorageValues.value;
      && (stored.name.Some? ==> values.name == stored.name.value)
      && (stored.name.None? ==> values.name == "")
      && (stored.awsBucketName.Some? ==> values.awsBucketName == stored.awsBucketName.value)
      && (stored.awsBucketName.None? ==> values.awsBucketName == "")
      && (stored.awsBucketRegion.Some? ==> values.awsBucketRegion == stored.awsBucketRegion.value)
      && (stored.awsBucketRegion.None? ==> values.awsBucketRegion == "")
      && (stored.accessKey.Some? ==> values.accessKey == stored.accessKey.value)
      && (stored.accessKey.None? ==> values.accessKey == "")
      && (stored.secret.Some? ==> values.secret == stored.secret.value)
      && (stored.secret.None? ==> values.secret == "")
      && (stored.s3Url.Some? ==> values.s3Url == stored.s3Url.value)
      && (stored.s3Url.None? ==> values.s3Url == "")
    // SSL is required when stored as required, and always for AWS
    ensures initialStorageValues.Some? ==>
      values.requireSSL == (initialStorageValues.value.requireSSL == Some(true) || isAWS)
    ensures isAWS ==> values.requireSSL
    // a stored CA bundle is kept only when non-empty; otherwise it is null, not ''
    ensures initialStorageValues.Some? ==>
      var bundle := initialStorageValues.value.caBundle;
      && (bundle.Some? && bundle.value != "" ==> values.caBundle == bundle)
      && (bundle.None? || bundle == Some("") ==> values.caBundle.None?)
  {
    values := FormValues(
      name := "",
      awsBucketName := "",
      awsBucketRegion := "",
      accessKey := "",
      secret := "",
      s3Url := "",
      bslProvider := provider,
      requireSSL := true,
      caBundle := Some(""));

    if initialStorageValues.Some? {
      var stored := initialStorageValues.value;
      values := values.(name := OrEmpty(stored.name));
      values := values.(awsBucketName := OrEmpty(stored.awsBucketName));
      values := values.(awsBucketRegion := OrEmpty(stored.awsBucketRegion));
      values := values.(accessKey := OrEmpty(stored.accessKey));
      values := values.(secret := OrEmpty(stored.secret));
      values := values.(s3Url := OrEmpty(stored.s3Url));
      // `stored.requireSSL || isAWS`
      values := values.(requireSSL := if stored.requireSSL == Some(true) then true else isAWS);
      values := values.(caBundle := OrNull(stored.caBundle));
    }
  }

  // ---------------------------------------------------------------------------
  // Validation
  // ---------------------------------------------------------------------------

  /**
   * A form the validation accepts, stated field by field: a DNS-1123 name, a
   * bucket name the provider check has nothing to say about, an endpoint that
   * is a URL (or, for AWS only, absent), and both credentials present.
   */
  predicate IsValid(values: FormValues, isAWS: bool, checks: Checks) {
    && values.name != "" && checks.testDNS1123(values.name)
    && values.awsBucketName != "" && checks.testS3Name(values.awsBucketName) == ""
    && (if values.s3Url == "" then isAWS else checks.testURL(values.s3Url))
    && values.accessKey != ""
    && values.secret != ""
  }

  /**
   * The errors record for the given values: field name to message. Later
   * assignments overwrite earlier ones, so a rule checked later wins.
   */
  method Validate(values: FormValues, isAWS: bool, checks: Checks) returns (errors: map<Field, string>)
    ensures errors.Keys <= ValidatedFields
    // name: required, then a DNS-1123 label
    ensures values.name == "" ==> Name in errors && errors[Name] == Required
    ensures values.name != "" && !checks.testDNS1123(values.name) ==>
      Name in errors && errors[Name] == checks.dns1123Error(values.name)
    ensures values.name != "" && checks.testDNS1123(values.name) ==> Name !in errors
    // bucket name: "Required" wins over the provider check's message
    ensures values.awsBucketName == "" ==> AwsBucketName in errors && errors[AwsBucketName] == Required
    ensures values.awsBucketName != "" ==>
      (AwsBucketName in errors <==> checks.testS3Name(values.awsBucketName) != "")
    ensures values.awsBucketName != "" && AwsBucketName in errors ==>
      errors[AwsBucketName] == checks.testS3Name(values.awsBucketName)
    // endpoint: a present URL must be valid, AWS or not; an absent one is required unless AWS
    ensures values.s3Url != "" ==> (S3Url in errors <==> !checks.testURL(values.s3Url))
    ensures values.s3Url != "" && S3Url in errors ==> errors[S3Url] == InvalidUrl
    ensures values.s3Url == "" ==> (S3Url in errors <==> !isAWS)
    ensures values.s3Url == "" && S3Url in errors ==> errors[S3Url] == Required
    // credentials: required
    ensures AccessKey in errors <==> values.accessKey == ""
    ensures AccessKey in errors ==> errors[AccessKey] == Required
    ensures Secret in errors <==> values.secret == ""
    ensures Secret in errors ==> errors[Secret] == Required
    // no error at all exactly for a valid form
    ensures errors == map[] <==> IsValid(values, isAWS, checks)
  {
    errors := map[];

    if values.name == "" {
      errors := errors[Name := Required];
    } else if !checks.testDNS1123(values.name) {
      errors := errors[Name := checks.dns1123Error(values.name)];
    }

    if values.awsBucketName == "" {
      errors := errors[AwsBucketName := Required];
    }

    var awsBucketNameError := checks.testS3Name(values.awsBucketName);
    if awsBucketNameError != "" {
      errors := errors[AwsBucketName := awsBucketNameError];
    }

    if values.awsBucketName == "" {
      errors := errors[AwsBucketName := Required];
    }

    if !isAWS && values.s3Url == "" {
      errors := errors[S3Url := Required];
    }

    if values.s3Url != "" {
      var s3UrlError := if checks.testURL(values.s3Url) then "" else InvalidUrl;
      if s3UrlError != "" {
        errors := errors[S3Url := s3UrlError];
      }
    }

    if values.accessKey == "" {
      errors := errors[AccessKey := Required];
    }

    if values.secret == "" {
      errors := errors[Secret := Required];
    }
    EmptyErrors(errors);
  }

  /** An errors record over the validated fields is empty exactly when none of them is flagged. */
  lemma EmptyErrors(errors: map<Field, string>)
    requires errors.Keys <= ValidatedFields
    ensures errors == map[] <==>
      Name !in errors && AwsBucketName !in errors && S3Url !in errors && AccessKey !in errors && Secret !in errors
  {
  }

  // ---------------------------------------------------------------------------
  // Submit
  // ---------------------------------------------------------------------------

  /**
   * What the submit handler touches: the form library's submitting flag and
   * the caller's `onAddEditSubmit` callback, recorded as the list of value
   * records it has been called with.
   */
  class SubmitBag {
    var isSubmitting: bool
    var submitted: seq<FormValues>

    /** Clears the submitting flag, then hands the values to the caller's callback once. */
    method HandleSubmit(values: FormValues)
      modifies this
      ensures !isSubmitting
      ensures submitted == old(submitted) + [values]
    {
      isSubmitting := false;
      submitted := submitted + [values];
    }
  }

  // ---------------------------------------------------------------------------
  // Masking of the credential inputs
  // ---------------------------------------------------------------------------

  /** The `type` of a credential input: masked while its hidden flag is set. */
  function InputType(hidden: bool): (t: string)
    ensures t == "password" <==> hidden
    ensures !hidden ==> t == "text"
  {
    if hidden then "password" else "text"
  }

  /** The two independent hidden flags of the access-key and secret inputs. */
  class CredentialVisibility {
    var isAccessKeyHidden: bool
    var isSecretHidden: bool

    /** Both credentials start masked. */
    constructor ()
      ensures isAccessKeyHidden && isSecretHidden
      ensures InputType(isAccessKeyHidden) == "password" && InputType(isSecretHidden) == "password"
    {
      isAccessKeyHidden := true;
      isSecretHidden := true;
    }

    /** Flips the access-key mask and nothing else. */
    method ToggleAccessKeyHidden()
      modifies this
      ensures isAccessKeyHidden == !old(isAccessKeyHidden)
      ensures isSecretHidden == old(isSecretHidden)
      ensures InputType(isAccessKeyHidden) != InputType(old(isAccessKeyHidden))
    {
      isAccessKeyHidden := !isAccessKeyHidden;
    }

    /** Flips the secret mask and nothing else. */
    method ToggleSecretHidden()
      modifies this
      ensures isSecretHidden == !old(isSecretHidden)
      ensures isAccessKeyHidden == old(isAccessKeyHidden)
      ensures InputType(isSecretHidden) != InputType(old(isSecretHidden))
    {
      isSecretHidden := !isSecretHidden;
    }
  }
}
