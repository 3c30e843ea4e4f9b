/** The data model shared by the whole app: the six canonical fields of a
    business card, the record holding them, the review status and the
    destination configuration. */
module Types {

  datatype Option<+T> = None | Some(value: T)

  /** The canonical fields, one per key of the record. */
  datatype Field = CompanyName | RepresentativeName | Position | Email | PhoneNumber | WorkerCount

  /** The canonical key order: the order in which the record's keys are
      declared, used by both payload builders and by the link parser's
      priority order. */
  const Fields: seq<Field> := [CompanyName, RepresentativeName, Position, Email, PhoneNumber, WorkerCount]

  /** A scanned business card. Every value is a string; "" means not found.
      The same shape is used for the form mapping (field to entry id) and for
      the webhook mapping (field to JSON key). */
  datatype BusinessData = BusinessData(
    companyName: string,
    representativeName: string,
    position: string,
    email: string,
    phoneNumber: string,
    workerCount: string)

  /** Field to form entry id ("" = not mapped, omit). */
  type GoogleFormMapping = BusinessData

  datatype Status = IDLE | PROCESSING | REVIEW | SUCCESS | ERROR

  datatype SubmitMethod = GOOGLE_FORM | WEBHOOK

  datatype LanguageMode = LATIN | KOREAN

  datatype SheetConfig = SheetConfig(
    submitMethod: SubmitMethod,
    formUrl: string,
    googleFormMapping: GoogleFormMapping,
    webhookUrl: string,
    webhookMapping: BusinessData)

  /** The record's key name for a field, as the source spells it. */
  function KeyName(f: Field): string
  {
    match f
    case CompanyName => "companyName"
    case RepresentativeName => "representativeName"
    case Position => "position"
    case Email => "email"
    case PhoneNumber => "phoneNumber"
    case WorkerCount => "workerCount"
  }

  /** Reads one field of a record, `data[field]`. */
  function Get(d: BusinessData, f: Field): string
  {
    match f
    case CompanyName => d.companyName
    case RepresentativeName => d.representativeName
    case Position => d.position
    case Email => d.email
    case PhoneNumber => d.phoneNumber
    case WorkerCount => d.workerCount
  }

  /** The all-empty record the app starts and resets with; it is also the
      default form mapping (every field unmapped). */
  const InitialData: BusinessData := BusinessData("", "", "", "", "", "")

  const DefaultFormMapping: GoogleFormMapping := InitialData

  /** The identity webhook mapping: every field goes to its own key name. */
  const DefaultWebhookMapping: BusinessData :=
    BusinessData("companyName", "representativeName", "position", "email", "phoneNumber", "workerCount")

  /** The configuration the app starts with. */
  const InitialConfig: SheetConfig :=
    SheetConfig(GOOGLE_FORM, "", DefaultFormMapping, "", DefaultWebhookMapping)

  /** Every field occurs in the canonical order exactly once, so the record
      has exactly six keys. */
  lemma FieldsEnumerateRecord()
    ensures |Fields| == 6
    ensures forall f: Field :: f in Fields
    ensures forall i, j :: 0 <= i < j < |Fields| ==> Fields[i] != Fields[j]
  {
    forall f: Field ensures f in Fields {
      match f
      case CompanyName => assert Fields[0] == f;
      case RepresentativeName => assert Fields[1] == f;
      case Position => assert Fields[2] == f;
      case Email => assert Fields[3] == f;
      case PhoneNumber => assert Fields[4] == f;
      case WorkerCount => assert Fields[5] == f;
    }
  }

  /** Two records are equal exactly when they agree on every field: the
      record holds the six fields and nothing else. */
  lemma RecordExtensional(a: BusinessData, b: BusinessData)
    ensures a == b <==> forall f: Field :: Get(a, f) == Get(b, f)
  {
    if forall f: Field :: Get(a, f) == Get(b, f) {
      assert Get(a, CompanyName) == Get(b, CompanyName);
      assert Get(a, RepresentativeName) == Get(b, RepresentativeName);
      assert Get(a, Position) == Get(b, Position);
      assert Get(a, Email) == Get(b, Email);
      assert Get(a, PhoneNumber) == Get(b, PhoneNumber);
      assert Get(a, WorkerCount) == Get(b, WorkerCount);
    }
  }

  /** Distinct fields have distinct key names. */
  lemma KeyNameInjective(f: Field, g: Field)
    ensures KeyName(f) == KeyName(g) <==> f == g
  {
  }

  /** The default webhook mapping sends each field to its key name, and the
      default form mapping leaves every field unmapped. */
  lemma DefaultMappings()
    ensures forall f: Field :: Get(DefaultWebhookMapping, f) == KeyName(f)
    ensures forall f: Field :: Get(DefaultFormMapping, f) == ""
    ensures forall f: Field :: Get(InitialData, f) == ""
  {
  }
}
