/** The destination settings dialog: the fallbacks applied to the
    configuration it is opened with, the prefilled-link parser that fills the
    Google Form mapping and derives the form's submission URL, and the checks
    run before a configuration is saved. */
module Settings {
  import opened Types
  import opened Text
  import DataReview
  import App

  // ---------------------------------------------------------------------
  // Loading a configuration
  // ---------------------------------------------------------------------

  /** A configuration as handed to the dialog: at run time any part of it may
      be missing, and the dialog then falls back to a default. */
  datatype StoredConfig = StoredConfig(
    submitMethod: Option<SubmitMethod>,
    formUrl: Option<string>,
    googleFormMapping: Option<GoogleFormMapping>,
    webhookUrl: Option<string>,
    webhookMapping: Option<BusinessData>)

  function OrElse<T>(o: Option<T>, default: T): T
  {
    match o
    case Some(v) => v
    case None => default
  }

  /** `config.x || default` for each of the five parts: Google Forms, empty
      URLs, the all-empty form mapping and the identity webhook mapping stand
      in for missing parts. */
  function Resolve(c: StoredConfig): (r: SheetConfig)
    ensures r.submitMethod == (if c.submitMethod.Some? then c.submitMethod.value else GOOGLE_FORM)
    ensures c.googleFormMapping.None? ==> r.googleFormMapping == DefaultFormMapping
    ensures c.webhookMapping.None? ==> r.webhookMapping == DefaultWebhookMapping
    ensures c.formUrl.None? ==> r.formUrl == ""
    ensures c.webhookUrl.None? ==> r.webhookUrl == ""
  {
    SheetConfig(
      OrElse(c.submitMethod, GOOGLE_FORM),
      OrElse(c.formUrl, ""),
      OrElse(c.googleFormMapping, DefaultFormMapping),
      OrElse(c.webhookUrl, ""),
      OrElse(c.webhookMapping, DefaultWebhookMapping))
  }

  /** A complete configuration, as the main screen holds it. */
  function Stored(c: SheetConfig): StoredConfig
  {
    StoredConfig(Some(c.submitMethod), Some(c.formUrl), Some(c.googleFormMapping),
                 Some(c.webhookUrl), Some(c.webhookMapping))
  }

  /** The fallbacks never touch a complete configuration: reopening the
      dialog shows exactly what was saved. */
  lemma ResolveStored(c: SheetConfig)
    ensures Resolve(Stored(c)) == c
  {
  }

  // ---------------------------------------------------------------------
  // Parsing a prefilled link
  // ---------------------------------------------------------------------

  /** One query parameter of the link, already decoded. */
  datatype Param = Param(name: string, value: string)

  /** Form questions are addressed by parameters named `entry.<id>`. */
  predicate IsEntry(p: Param)
  {
    HasPrefix(p.name, "entry.")
  }

  /** The `entry.*` parameters, in link order. */
  function EntryParams(ps: seq<Param>): (es: seq<Param>)
    ensures |es| <= |ps|
    ensures forall p :: p in es <==> p in ps && IsEntry(p)
  {
    if ps == [] then []
    else
      var last := ps[|ps| - 1];
      EntryParams(ps[..|ps| - 1]) + (if IsEntry(last) then [last] else [])
  }

  /** The filter keeps link order and repeats: filtering a concatenation
      filters each part and concatenates the results. */
  lemma {:induction false} EntryParamsSplit(a: seq<Param>, b: seq<Param>)
    ensures EntryParams(a + b) == EntryParams(a) + EntryParams(b)
  {
    if b == [] {
      assert a + b == a;
    } else {
      var init := b[..|b| - 1];
      var last := b[|b| - 1];
      assert (a + b)[..|a + b| - 1] == a + init;
      assert (a + b)[|a + b| - 1] == last;
      EntryParamsSplit(a, init);
    }
  }

  /** The keywords that point a sample value at a field, in lower case. */
  function Keywords(f: Field): seq<string>
  {
    match f
    case CompanyName => ["ty", "company"]
    case RepresentativeName => ["tên", "name", "đại diện"]
    case Position => ["vụ", "position", "pos"]
    case Email => ["@", "mail"]
    case PhoneNumber => ["số", "phone", "tel"]
    case WorkerCount => ["lượng", "công nhân", "worker"]
  }

  /** The lower-cased sample value contains one of the field's keywords. */
  predicate Matches(f: Field, lowered: string)
  {
    exists kw :: kw in Keywords(f) && Contains(lowered, kw)
  }

  /** The position of the first field of `fs`, from position `i` on, whose
      keywords match. */
  function FirstMatchFrom(lowered: string, fs: seq<Field>, i: nat): (r: Option<nat>)
    requires i <= |fs|
    ensures r.Some? ==> i <= r.value < |fs| && Matches(fs[r.value], lowered)
    ensures r.Some? ==> forall j :: i <= j < r.value ==> !Matches(fs[j], lowered)
    ensures r.None? ==> forall j :: i <= j < |fs| ==> !Matches(fs[j], lowered)
    decreases |fs| - i
  {
    if i == |fs| then None
    else if Matches(fs[i], lowered) then Some(i)
    else FirstMatchFrom(lowered, fs, i + 1)
  }

  /** The field a sample value is assigned to: the first of company,
      representative name, position, email, phone and worker count whose
      keywords its lower-cased text contains; none when nothing matches. */
  function Classify(value: string): (r: Option<Field>)
    ensures r.Some? ==> Matches(r.value, Lower(value))
  {
    match FirstMatchFrom(Lower(value), Fields, 0)
    case None => None
    case Some(i) => Some(Fields[i])
  }

  /** The position of a field in the priority order. */
  function Rank(f: Field): (k: nat)
    ensures k < |Fields| && Fields[k] == f
  {
    match f
    case CompanyName => 0
    case RepresentativeName => 1
    case Position => 2
    case Email => 3
    case PhoneNumber => 4
    case WorkerCount => 5
  }

  /** A value goes to field `f` exactly when `f`'s keywords match and those
      of no field before `f` in the priority order do; it goes nowhere exactly
      when no field's keywords match. */
  lemma ClassifySpec(value: string, f: Field)
    ensures Classify(value) == Some(f) <==>
              Matches(f, Lower(value)) && forall g :: Rank(g) < Rank(f) ==> !Matches(g, Lower(value))
    ensures Classify(value).None? <==> forall g :: !Matches(g, Lower(value))
  {
    var lv := Lower(value);
    var r := FirstMatchFrom(lv, Fields, 0);
    if r.Some? {
      var i := r.value;
      assert Rank(Fields[i]) == i;
      if Matches(f, lv) && forall g :: Rank(g) < Rank(f) ==> !Matches(g, lv) {
        assert Fields[Rank(f)] == f;
      }
    } else {
      forall g ensures !Matches(g, lv) {
        assert Fields[Rank(g)] == g;
      }
    }
  }

  /** The mapping after the assignment loop has visited the entries `es`:
      each entry whose value classifies to a field overwrites that field with
      the entry's name. */
  function AssignAll(m: GoogleFormMapping, es: seq<Param>): GoogleFormMapping
  {
    if es == [] then m
    else
      var prev := AssignAll(m, es[..|es| - 1]);
      var e := es[|es| - 1];
      match Classify(e.value)
      case None => prev
      case Some(f) => DataReview.With(prev, f, e.name)
  }

  /** A field no entry classifies to keeps its starting value. */
  lemma {:induction false} AssignAllUntouched(m: GoogleFormMapping, es: seq<Param>, f: Field)
    requires forall i :: 0 <= i < |es| ==> Classify(es[i].value) != Some(f)
    ensures Get(AssignAll(m, es), f) == Get(m, f)
  {
    if es != [] {
      AssignAllUntouched(m, es[..|es| - 1], f);
    }
  }

  /** When several entries classify to the same field, the last one wins. */
  lemma {:induction false} AssignAllLastWins(m: GoogleFormMapping, es: seq<Param>, f: Field, i: nat)
    requires i < |es| && Classify(es[i].value) == Some(f)
    requires forall j :: i < j < |es| ==> Classify(es[j].value) != Some(f)
    ensures Get(AssignAll(m, es), f) == es[i].name
  {
    var init := es[..|es| - 1];
    if i < |es| - 1 {
      AssignAllLastWins(m, init, f, i);
    }
  }

  /** Every field either keeps its starting value or holds the name of an
      entry that classifies to it. */
  lemma {:induction false} AssignAllOrigin(m: GoogleFormMapping, es: seq<Param>, f: Field)
    ensures Get(AssignAll(m, es), f) == Get(m, f) ||
            exists i :: 0 <= i < |es| && Classify(es[i].value) == Some(f) && Get(AssignAll(m, es), f) == es[i].name
  {
    if es != [] {
      var init := es[..|es| - 1];
      AssignAllOrigin(m, init, f);
      if Get(AssignAll(m, es), f) != Get(AssignAll(m, init), f) {
        assert Classify(es[|es| - 1].value) == Some(f);
      } else if Get(AssignAll(m, init), f) != Get(m, f) {
        var i :| 0 <= i < |init| && Classify(init[i].value) == Some(f) && Get(AssignAll(m, init), f) == init[i].name;
        assert es[i] == init[i];
      }
    }
  }

  /** The mapping the parser produces from the link's parameters. */
  function ParsedMapping(ps: seq<Param>): GoogleFormMapping
  {
    AssignAll(DefaultFormMapping, EntryParams(ps))
  }

  /** A field no `entry.*` parameter classifies to stays empty. */
  lemma ParsedMappingUnmatched(ps: seq<Param>, f: Field)
    requires forall p :: p in ps && IsEntry(p) ==> Classify(p.value) != Some(f)
    ensures Get(ParsedMapping(ps), f) == ""
  {
    var es := EntryParams(ps);
    forall i | 0 <= i < |es| ensures Classify(es[i].value) != Some(f) {
      assert es[i] in es;
    }
    AssignAllUntouched(DefaultFormMapping, es, f);
  }

  /** When several `entry.*` parameters classify to a field, the last one's
      name wins. */
  lemma ParsedMappingLastWins(ps: seq<Param>, f: Field, i: nat)
    requires i < |EntryParams(ps)| && Classify(EntryParams(ps)[i].value) == Some(f)
    requires forall j :: i < j < |EntryParams(ps)| ==> Classify(EntryParams(ps)[j].value) != Some(f)
    ensures Get(ParsedMapping(ps), f) == EntryParams(ps)[i].name
  {
    AssignAllLastWins(DefaultFormMapping, EntryParams(ps), f, i);
  }

  /** An `entry.*` parameter stays in its place among the filtered ones. */
  lemma EntryParamsAround(a: seq<Param>, x: Param, b: seq<Param>)
    requires IsEntry(x)
    ensures EntryParams(a + [x] + b) == EntryParams(a) + [x] + EntryParams(b)
  {
    assert EntryParams([x]) == [x] by {
      assert [x][..0] == [];
    }
    EntryParamsSplit(a, [x]);
    EntryParamsSplit(a + [x], b);
  }

  /** The parser's mapping when an `entry.*` parameter `x` that classifies
      to `f` is followed by no `entry.*` parameter that does. */
  lemma ParsedMappingLastPart(a: seq<Param>, x: Param, b: seq<Param>, f: Field)
    requires IsEntry(x) && Classify(x.value) == Some(f)
    requires forall p :: p in b && IsEntry(p) ==> Classify(p.value) != Some(f)
    ensures Get(ParsedMapping(a + [x] + b), f) == x.name
  {
    EntryParamsAround(a, x, b);
    var es, tail := EntryParams(a + [x] + b), EntryParams(b);
    var k := |EntryParams(a)|;
    forall j | k < j < |es| ensures Classify(es[j].value) != Some(f) {
      assert es[j] == tail[j - k - 1];
      assert tail[j - k - 1] in tail;
    }
    AssignAllLastWins(DefaultFormMapping, es, f, k);
  }

  /** Stated on the link itself: the `entry.*` parameter that classifies to
      a field and is the last of the link to do so gives the field its
      name. */
  lemma ParsedMappingLastInLink(ps: seq<Param>, f: Field, i: nat)
    requires i < |ps| && IsEntry(ps[i]) && Classify(ps[i].value) == Some(f)
    requires forall j :: i < j < |ps| && IsEntry(ps[j]) ==> Classify(ps[j].value) != Some(f)
    ensures Get(ParsedMapping(ps), f) == ps[i].name
  {
    var post := ps[i + 1..];
    forall p | p in post && IsEntry(p) ensures Classify(p.value) != Some(f) {
      var j :| 0 <= j < |post| && post[j] == p;
      assert ps[i + 1 + j] == p;
    }
    assert ps == ps[..i] + [ps[i]] + post;
    ParsedMappingLastPart(ps[..i], ps[i], post, f);
  }

  /** A non-empty field holds the name of an `entry.*` parameter that
      classifies to it. */
  lemma ParsedMappingOrigin(ps: seq<Param>, f: Field)
    requires Get(ParsedMapping(ps), f) != ""
    ensures exists p :: p in ps && IsEntry(p) && Classify(p.value) == Some(f) && p.name == Get(ParsedMapping(ps), f)
  {
    var es := EntryParams(ps);
    AssignAllOrigin(DefaultFormMapping, es, f);
    var i :| 0 <= i < |es| && Classify(es[i].value) == Some(f) && Get(ParsedMapping(ps), f) == es[i].name;
    assert es[i] in es;
  }

  /** A trailing `viewform` (or else a trailing `prefill`) turned into
      `formResponse` by a first-occurrence `replace`. */
  function RewritePath(path: string): string
  {
    if EndsWith(path, "viewform") then ReplaceFirst(path, "viewform", "formResponse")
    else if EndsWith(path, "prefill") then ReplaceFirst(path, "prefill", "formResponse")
    else path
  }

  /** The form's submission URL derived from the link: the text before the
      first `?`, with its path rewritten. */
  function ActionUrl(link: string): string
  {
    RewritePath(BeforeFirst(link, '?'))
  }

  /** The submission URL never carries a query string. */
  lemma ActionUrlNoQuery(link: string)
    ensures '?' !in ActionUrl(link)
  {
    var path := BeforeFirst(link, '?');
    ReplaceFirstAvoids(path, "viewform", "formResponse", '?');
    ReplaceFirstAvoids(path, "prefill", "formResponse", '?');
  }

  /** A path ending neither in `viewform` nor in `prefill` is kept as it is. */
  lemma RewritePathKeeps(path: string)
    requires !EndsWith(path, "viewform") && !EndsWith(path, "prefill")
    ensures RewritePath(path) == path
  {
  }

  /** A path ending in `viewform`, with no earlier `viewform`, gets that word
      replaced by `formResponse`. */
  lemma RewritePathFromViewform(path: string)
    requires EndsWith(path, "viewform")
    requires forall i :: 0 <= i < |path| - 8 ==> !OccursAt(path, "viewform", i)
    ensures RewritePath(path) == path[..|path| - 8] + "formResponse"
  {
    var i := |path| - 8;
    assert OccursAt(path, "viewform", i);
    ReplaceFirstAt(path, "viewform", "formResponse", i);
    assert path[i + 8..] == [];
  }

  /** A path ending in `prefill`, with no earlier `prefill`, gets that word
      replaced by `formResponse`. */
  lemma RewritePathFromPrefill(path: string)
    requires EndsWith(path, "prefill")
    requires forall i :: 0 <= i < |path| - 7 ==> !OccursAt(path, "prefill", i)
    ensures RewritePath(path) == path[..|path| - 7] + "formResponse"
  {
    var i := |path| - 7;
    assert !EndsWith(path, "viewform") by {
      assert path[|path| - 7..][6] == 'l';
    }
    assert OccursAt(path, "prefill", i);
    ReplaceFirstAt(path, "prefill", "formResponse", i);
    assert path[i + 7..] == [];
  }

  /** A `replace` rewrites the FIRST occurrence, not the trailing one: a path
      that also holds `viewform` earlier on has that earlier one rewritten and
      still ends in `viewform`. */
  lemma RewritePathEarlierViewform(path: string, i: nat)
    requires EndsWith(path, "viewform")
    requires OccursAt(path, "viewform", i) && i + 8 <= |path| - 8
    requires forall j :: 0 <= j < i ==> !OccursAt(path, "viewform", j)
    ensures RewritePath(path) == path[..i] + "formResponse" + path[i + 8..]
    ensures EndsWith(RewritePath(path), "viewform")
  {
    ReplaceFirstAt(path, "viewform", "formResponse", i);
    var tail := path[i + 8..];
    var r := path[..i] + "formResponse" + tail;
    assert r[|r| - 8..] == tail[|tail| - 8..];
    assert tail[|tail| - 8..] == path[|path| - 8..];
  }

  /** What the parse button does with the link and the parameters the
      browser read from it (`None` when the link is not a valid URL). */
  datatype ParseOutcome =
    | EmptyLink
    | SheetLink
    | InvalidLink
    | Parsed(mapping: GoogleFormMapping, actionUrl: string)

  /** The parse handler's computation: the empty link and a spreadsheet link
      are refused before any parsing, an invalid URL is reported, and
      otherwise the `entry.*` parameters are collected, classified and
      assigned, and the submission URL is derived. */
  method ParseLink(link: string, params: Option<seq<Param>>) returns (out: ParseOutcome)
    ensures link == "" ==> out == EmptyLink
    ensures link != "" && Contains(link, "spreadsheets") ==> out == SheetLink
    ensures link != "" && !Contains(link, "spreadsheets") && params.None? ==> out == InvalidLink
    ensures link != "" && !Contains(link, "spreadsheets") && params.Some? ==>
              out == Parsed(ParsedMapping(params.value), ActionUrl(link))
  {
    if link == "" {
      return EmptyLink;
    }
    if Contains(link, "spreadsheets") {
      return SheetLink;
    }
    if params.None? {
      return InvalidLink;
    }
    var ps := params.value;
    var newMapping := DefaultFormMapping;
    var entries: seq<Param> := [];
    for i := 0 to |ps|
      invariant entries == EntryParams(ps[..i])
    {
      if HasPrefix(ps[i].name, "entry.") {
        entries := entries + [ps[i]];
      }
      assert ps[..i + 1][..i] == ps[..i];
    }
    assert ps[..|ps|] == ps;
    for i := 0 to |entries|
      invariant newMapping == AssignAll(DefaultFormMapping, entries[..i])
    {
      var entry := entries[i];
      var target := Classify(entry.value);
      if target.Some? {
        newMapping := DataReview.With(newMapping, target.value, entry.name);
      }
      assert entries[..i + 1][..i] == entries[..i];
    }
    assert entries[..|entries|] == entries;
    var actionUrl := BeforeFirst(link, '?');
    if EndsWith(actionUrl, "viewform") {
      actionUrl := ReplaceFirst(actionUrl, "viewform", "formResponse");
    } else if EndsWith(actionUrl, "prefill") {
      actionUrl := ReplaceFirst(actionUrl, "prefill", "formResponse");
    }
    return Parsed(newMapping, actionUrl);
  }

  // ---------------------------------------------------------------------
  // Saving
  // ---------------------------------------------------------------------

  datatype RejectReason = MissingWebhookUrl | SheetLinkAsWebhook | MissingFormUrl

  /** The save check's verdict: refuse with a message, ask the user to
      confirm, or save. */
  datatype SaveDecision = Reject(reason: RejectReason) | NeedsConfirm | Save

  /** The checks of the save button. A webhook needs a URL that is not a
      spreadsheet link, and one that is not an Apps Script URL needs the
      user's confirmation; a Google Form needs its submission URL. */
  function CheckSave(m: SubmitMethod, formUrl: string, webhookUrl: string): (d: SaveDecision)
    ensures d == Reject(MissingWebhookUrl) <==> m == WEBHOOK && webhookUrl == ""
    ensures d == Reject(SheetLinkAsWebhook) <==>
              m == WEBHOOK && webhookUrl != "" && Contains(webhookUrl, "docs.google.com/spreadsheets")
    ensures d == NeedsConfirm <==>
              m == WEBHOOK && webhookUrl != "" && !Contains(webhookUrl, "docs.google.com/spreadsheets") &&
              !Contains(webhookUrl, "script.google.com")
    ensures d == Reject(MissingFormUrl) <==> m == GOOGLE_FORM && formUrl == ""
  {
    match m
    case WEBHOOK =>
      if webhookUrl == "" then Reject(MissingWebhookUrl)
      else if Contains(webhookUrl, "docs.google.com/spreadsheets") then Reject(SheetLinkAsWebhook)
      else if !Contains(webhookUrl, "script.google.com") then NeedsConfirm
      else Save
    case GOOGLE_FORM =>
      if formUrl == "" then Reject(MissingFormUrl) else Save
  }

  /** The save handler: the configuration handed to the main screen, or
      nothing when the check refuses or the user declines to confirm. */
  function HandleSave(current: SheetConfig, confirmed: bool): (saved: Option<SheetConfig>)
    ensures saved.Some? ==> saved.value == current
    ensures saved.Some? <==>
              match CheckSave(current.submitMethod, current.formUrl, current.webhookUrl)
              case Save => true
              case NeedsConfirm => confirmed
              case Reject(_) => false
    ensures saved.Some? ==> App.IsConfigured(saved.value)
    ensures current.submitMethod == WEBHOOK && Contains(current.webhookUrl, "docs.google.com/spreadsheets") ==>
              saved.None?
  {
    match CheckSave(current.submitMethod, current.formUrl, current.webhookUrl)
    case Reject(_) => None
    case NeedsConfirm => if confirmed then Some(current) else None
    case Save => Some(current)
  }

  /** The save button is disabled exactly when the selected method's URL is
      empty, so a click never meets the two missing-URL refusals. */
  function SaveDisabled(current: SheetConfig): (disabled: bool)
    ensures disabled <==> !App.IsConfigured(current)
    ensures !disabled ==> CheckSave(current.submitMethod, current.formUrl, current.webhookUrl)
                            !in {Reject(MissingWebhookUrl), Reject(MissingFormUrl)}
  {
    if current.submitMethod == GOOGLE_FORM then current.formUrl == "" else current.webhookUrl == ""
  }

  // ---------------------------------------------------------------------
  // The dialog's state
  // ---------------------------------------------------------------------

  class SettingsForm {
    var submitMethod: SubmitMethod
    var prefilledLink: string
    var formMapping: GoogleFormMapping
    var formUrl: string
    var webhookUrl: string
    var webhookMapping: BusinessData

    /** The five parts a save hands on, as currently held. */
    function Current(): (c: SheetConfig)
      reads this
      ensures c.submitMethod == submitMethod && c.formUrl == formUrl && c.googleFormMapping == formMapping
      ensures c.webhookUrl == webhookUrl && c.webhookMapping == webhookMapping
    {
      SheetConfig(submitMethod, formUrl, formMapping, webhookUrl, webhookMapping)
    }

    constructor (config: StoredConfig)
      ensures Current() == Resolve(config) && prefilledLink == ""
    {
      var c := Resolve(config);
      submitMethod := c.submitMethod;
      prefilledLink := "";
      formMapping := c.googleFormMapping;
      formUrl := c.formUrl;
      webhookUrl := c.webhookUrl;
      webhookMapping := c.webhookMapping;
    }

    /** Opening the dialog reloads the five parts from the configuration,
        with the fallbacks; the link field keeps its text. */
    method Reload(config: StoredConfig)
      modifies this
      ensures Current() == Resolve(config) && prefilledLink == old(prefilledLink)
    {
      var c := Resolve(config);
      submitMethod := c.submitMethod;
      formMapping := c.googleFormMapping;
      formUrl := c.formUrl;
      webhookUrl := c.webhookUrl;
      webhookMapping := c.webhookMapping;
    }

    /** The parse button, on the Google Forms tab: only a successful parse
        changes the form mapping and the submission URL; nothing else
        changes. */
    method HandleParseLink(params: Option<seq<Param>>) returns (out: ParseOutcome)
      requires submitMethod == GOOGLE_FORM
      modifies this
      ensures prefilledLink == "" ==> out == EmptyLink
      ensures prefilledLink != "" && Contains(prefilledLink, "spreadsheets") ==> out == SheetLink
      ensures prefilledLink != "" && !Contains(prefilledLink, "spreadsheets") && params.None? ==> out == InvalidLink
      ensures prefilledLink != "" && !Contains(prefilledLink, "spreadsheets") && params.Some? ==>
                out == Parsed(ParsedMapping(params.value), ActionUrl(prefilledLink))
      ensures out.Parsed? ==> formMapping == out.mapping && formUrl == out.actionUrl
      ensures !out.Parsed? ==> formMapping == old(formMapping) && formUrl == old(formUrl)
      ensures submitMethod == old(submitMethod) && prefilledLink == old(prefilledLink)
      ensures webhookUrl == old(webhookUrl) && webhookMapping == old(webhookMapping)
    {
      out := ParseLink(prefilledLink, params);
      if out.Parsed? {
        formMapping := out.mapping;
        formUrl := out.actionUrl;
      }
    }

    method SetMethod(m: SubmitMethod)
      modifies this
      ensures Current() == old(Current()).(submitMethod := m) && prefilledLink == old(prefilledLink)
    {
      submitMethod := m;
    }

    /** The link input of the Google Forms tab. */
    method SetPrefilledLink(link: string)
      requires submitMethod == GOOGLE_FORM
      modifies this
      ensures Current() == old(Current()) && prefilledLink == link
    {
      prefilledLink := link;
    }

    /** The URL input of the webhook tab. */
    method SetWebhookUrl(url: string)
      requires submitMethod == WEBHOOK
      modifies this
      ensures Current() == old(Current()).(webhookUrl := url) && prefilledLink == old(prefilledLink)
    {
      webhookUrl := url;
    }

    /** A mapping row's input changed the entry id of field `f`; the rows are
        shown on the Google Forms tab once a submission URL is set. */
    method EditFormMapping(f: Field, id: string)
      requires submitMethod == GOOGLE_FORM && formUrl != ""
      modifies this
      ensures Current() == old(Current()).(googleFormMapping := DataReview.With(old(formMapping), f, id))
      ensures prefilledLink == old(prefilledLink)
    {
      formMapping := DataReview.With(formMapping, f, id);
    }

    /** A key-mapping input of the webhook tab changed the JSON key of field
        `f`. */
    method EditWebhookMapping(f: Field, key: string)
      requires submitMethod == WEBHOOK
      modifies this
      ensures Current() == old(Current()).(webhookMapping := DataReview.With(old(webhookMapping), f, key))
      ensures prefilledLink == old(prefilledLink)
    {
      webhookMapping := DataReview.With(webhookMapping, f, key);
    }

    /** The save button with the user's answer to the confirmation prompt:
        the configuration to hand to the main screen, if any. */
    function Save(confirmed: bool): (saved: Option<SheetConfig>)
      reads this
      ensures saved.Some? ==> saved.value == Current() && App.IsConfigured(saved.value)
      ensures submitMethod == WEBHOOK && Contains(webhookUrl, "docs.google.com/spreadsheets") ==> saved.None?
    {
      HandleSave(Current(), confirmed)
    }
  }
}
