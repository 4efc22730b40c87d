/** The generation config of app/page.tsx: its seven fields, the form schema
    that validates them, and the form's default values. */
module Configuration {

  /** The record the form collects, stored and handed to generation. */
  datatype Config = Config(
    apiKey: string,
    businessTheme: string,
    frontend: string,
    backend: string,
    database: string,
    uiFramework: string,
    formLibrary: string)

  /** The form's fields, one per config field. */
  datatype Field = ApiKey | BusinessTheme | Frontend | Backend | Database | UiFramework | FormLibrary

  /** The fields in the order the schema declares them. */
  const SchemaFields: seq<Field> := [ApiKey, BusinessTheme, Frontend, Backend, Database, UiFramework, FormLibrary]

  function Value(c: Config, f: Field): string
  {
    match f
    case ApiKey => c.apiKey
    case BusinessTheme => c.businessTheme
    case Frontend => c.frontend
    case Backend => c.backend
    case Database => c.database
    case UiFramework => c.uiFramework
    case FormLibrary => c.formLibrary
  }

  /** The message the schema attaches to a field shorter than one character. */
  function RequiredMessage(f: Field): string
  {
    match f
    case ApiKey => "API Key is required"
    case BusinessTheme => "Business Problem Theme is required"
    case Frontend => "Frontend is required"
    case Backend => "Backend is required"
    case Database => "Database is required"
    case UiFramework => "UI Framework is required"
    case FormLibrary => "Form Library is required"
  }

  /** One validation failure, shown next to its field. */
  datatype FieldError = FieldError(field: Field, message: string)

  /** A config is acceptable when every field holds at least one character. */
  predicate Valid(c: Config)
  {
    && c.apiKey != "" && c.businessTheme != "" && c.frontend != "" && c.backend != ""
    && c.database != "" && c.uiFramework != "" && c.formLibrary != ""
  }

  /** Validity, field by field. */
  lemma ValidMeansAllFilled(c: Config)
    ensures Valid(c) <==> forall f :: Value(c, f) != ""
  {
    if !Valid(c) {
      var f :| f in [ApiKey, BusinessTheme, Frontend, Backend, Database, UiFramework, FormLibrary] && Value(c, f) == "";
    }
  }

  /** The schema checks every field of the config. */
  lemma SchemaCoversAllFields()
    ensures forall f :: f in SchemaFields
  {
    forall f ensures f in SchemaFields {
      match f
      case ApiKey => assert SchemaFields[0] == f;
      case BusinessTheme => assert SchemaFields[1] == f;
      case Frontend => assert SchemaFields[2] == f;
      case Backend => assert SchemaFields[3] == f;
      case Database => assert SchemaFields[4] == f;
      case UiFramework => assert SchemaFields[5] == f;
      case FormLibrary => assert SchemaFields[6] == f;
    }
  }

  /** No field occurs twice in the list. */
  predicate DistinctFields(fields: seq<Field>)
  {
    forall i, j :: 0 <= i < j < |fields| ==> fields[i] != fields[j]
  }

  /** No field has more than one error in the list. */
  predicate OneErrorPerField(errors: seq<FieldError>)
  {
    forall i, j :: 0 <= i < j < |errors| ==> errors[i].field != errors[j].field
  }

  /** The failures of the given fields, in the given order: one required-field
      message for each empty field and nothing else. Checking each field once
      reports each field at most once. */
  function ErrorsFor(c: Config, fields: seq<Field>): (errors: seq<FieldError>)
    ensures forall e :: e in errors ==> e.field in fields && Value(c, e.field) == "" && e.message == RequiredMessage(e.field)
    ensures forall f :: f in fields && Value(c, f) == "" ==> FieldError(f, RequiredMessage(f)) in errors
    ensures DistinctFields(fields) ==> OneErrorPerField(errors)
  {
    if fields == [] then []
    else
      var rest := ErrorsFor(c, fields[1..]);
      assert DistinctFields(fields) ==> DistinctFields(fields[1..]) && fields[0] !in fields[1..];
      if Value(c, fields[0]) == "" then [FieldError(fields[0], RequiredMessage(fields[0]))] + rest else rest
  }

  /** The form schema: every field is checked, a config passes exactly when
      it is valid, and each empty field gets its own required-field message,
      once. */
  function Validate(c: Config): (errors: seq<FieldError>)
    ensures errors == [] <==> Valid(c)
    ensures forall f :: FieldError(f, RequiredMessage(f)) in errors <==> Value(c, f) == ""
    ensures forall e :: e in errors ==> e.message == RequiredMessage(e.field)
    ensures OneErrorPerField(errors)
  {
    SchemaCoversAllFields();
    ValidMeansAllFilled(c);
    assert DistinctFields(SchemaFields);
    var errors := ErrorsFor(c, SchemaFields);
    assert errors != [] ==> errors[0] in errors;
    assert !Valid(c) ==> exists f :: Value(c, f) == "" && FieldError(f, RequiredMessage(f)) in errors;
    errors
  }

  /** The form's initial values: no API key, no theme, and a preset stack. */
  const Defaults: Config := Config(
    "",
    "",
    "React/Next.js with RTK Query/React Query",
    "NestJS",
    "Postgres with Prisma ORM",
    "ShadCn",
    "React Hook Form")

  /** An untouched form cannot be submitted: exactly the API key and the theme
      are reported missing. */
  lemma DefaultsRejected()
    ensures !Valid(Defaults)
    ensures forall f :: FieldError(f, RequiredMessage(f)) in Validate(Defaults) <==> f == ApiKey || f == BusinessTheme
    ensures FieldError(ApiKey, "API Key is required") in Validate(Defaults)
  {
    var errors := Validate(Defaults);
    forall f ensures FieldError(f, RequiredMessage(f)) in errors <==> f == ApiKey || f == BusinessTheme {
      assert Value(Defaults, f) == "" <==> f == ApiKey || f == BusinessTheme;
    }
  }
}
