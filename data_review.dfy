/** The review form: the single-field edit every input applies to the record
    under review, the empty-company warning and the disabled buttons. */
module DataReview {
  import opened Types

  /** `{ ...data, [field]: value }`: a copy of the record with one field
      replaced. */
  function With(d: BusinessData, f: Field, v: string): (r: BusinessData)
    ensures Get(r, f) == v
    ensures forall g :: g != f ==> Get(r, g) == Get(d, g)
  {
    match f
    case CompanyName => d.(companyName := v)
    case RepresentativeName => d.(representativeName := v)
    case Position => d.(position := v)
    case Email => d.(email := v)
    case PhoneNumber => d.(phoneNumber := v)
    case WorkerCount => d.(workerCount := v)
  }

  /** The warning under the inputs is shown exactly when the company name is
      empty. */
  function ShowsCompanyWarning(d: BusinessData): (shown: bool)
    ensures shown <==> Get(d, CompanyName) == ""
  {
    d.companyName == ""
  }

  /** Cancel and confirm are disabled exactly when the `isSending` property
      holds. The main screen always passes false, so on that screen the two
      buttons are never disabled. */
  function ButtonsDisabled(isSending: bool): (disabled: bool)
    ensures disabled <==> isSending
  {
    isSending
  }

  /** The edited record is the unique record that holds `v` at `f` and agrees
      with the original everywhere else. */
  lemma WithCharacterized(d: BusinessData, f: Field, v: string, e: BusinessData)
    ensures e == With(d, f, v) <==> Get(e, f) == v && forall g :: g != f ==> Get(e, g) == Get(d, g)
  {
    var r := With(d, f, v);
    RecordExtensional(e, r);
  }

  /** Writing back the value a field already holds changes nothing. */
  lemma WithSameValue(d: BusinessData, f: Field)
    ensures With(d, f, Get(d, f)) == d
  {
    RecordExtensional(With(d, f, Get(d, f)), d);
  }

  /** Of two successive edits to the same field only the last one shows. */
  lemma WithLastWins(d: BusinessData, f: Field, v: string, w: string)
    ensures With(With(d, f, v), f, w) == With(d, f, w)
  {
    RecordExtensional(With(With(d, f, v), f, w), With(d, f, w));
  }

  /** Edits to different fields commute. */
  lemma WithCommutes(d: BusinessData, f: Field, v: string, g: Field, w: string)
    requires f != g
    ensures With(With(d, f, v), g, w) == With(With(d, g, w), f, v)
  {
    RecordExtensional(With(With(d, f, v), g, w), With(With(d, g, w), f, v));
  }
}
