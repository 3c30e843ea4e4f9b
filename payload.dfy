/** The two outbound payload strategies of the send handler.

    Form strategy: an ordered list of (entry id, value) pairs, one per
    canonical field whose entry id is not empty, in canonical order; pairs
    with equal ids are all kept, as `FormData.append` keeps them.

    Webhook strategy: an ordered dictionary from destination key to value.
    Every canonical field writes its value under its mapped key, or under its
    own key name when the mapping is empty; a later write to a key already
    present replaces the value in place, as assigning to an existing property
    of a JavaScript object does. */
module Payload {
  import opened Types

  /** One multipart form field, or one property of the JSON object. */
  type Entry = (string, string)

  // ---------------------------------------------------------------------
  // Form strategy
  // ---------------------------------------------------------------------

  /** The pairs the form strategy appends for the fields `fs`, in order. */
  function FormPairs(r: BusinessData, m: GoogleFormMapping, fs: seq<Field>): seq<Entry>
  {
    if fs == [] then []
    else
      FormStep(r, m, fs[0]) + FormPairs(r, m, fs[1..])
  }

  /** The form payload for the whole record. */
  function FormPayload(r: BusinessData, m: GoogleFormMapping): seq<Entry>
  {
    FormPairs(r, m, Fields)
  }

  /** What one field contributes to the form payload. */
  function FormStep(r: BusinessData, m: GoogleFormMapping, f: Field): seq<Entry>
  {
    if Get(m, f) != "" then [(Get(m, f), Get(r, f))] else []
  }

  /** Appending a field appends its pairs. */
  lemma {:induction false} FormPairsSnoc(r: BusinessData, m: GoogleFormMapping, fs: seq<Field>, f: Field)
    ensures FormPairs(r, m, fs + [f]) == FormPairs(r, m, fs) + FormStep(r, m, f)
  {
    if fs == [] {
      assert ([] + [f])[1..] == [];
    } else {
      assert (fs + [f])[1..] == fs[1..] + [f];
      FormPairsSnoc(r, m, fs[1..], f);
    }
  }

  /** The form payload field by field, in the record's order. */
  lemma FormPayloadUnrolled(r: BusinessData, m: GoogleFormMapping)
    ensures FormPayload(r, m) ==
      FormStep(r, m, CompanyName) + FormStep(r, m, RepresentativeName) + FormStep(r, m, Position) +
      FormStep(r, m, Email) + FormStep(r, m, PhoneNumber) + FormStep(r, m, WorkerCount)
  {
    var c, n, p, e, t, w := FormStep(r, m, CompanyName), FormStep(r, m, RepresentativeName),
      FormStep(r, m, Position), FormStep(r, m, Email), FormStep(r, m, PhoneNumber), FormStep(r, m, WorkerCount);
    var s1: seq<Field> := [CompanyName];
    var s2 := s1 + [RepresentativeName];
    var s3 := s2 + [Position];
    var s4 := s3 + [Email];
    var s5 := s4 + [PhoneNumber];
    var s6 := s5 + [WorkerCount];
    assert FormPairs(r, m, s1) == c by {
      FormPairsSnoc(r, m, [], CompanyName);
      assert [] + [CompanyName] == s1;
    }
    assert FormPairs(r, m, s2) == c + n by { FormPairsSnoc(r, m, s1, RepresentativeName); }
    assert FormPairs(r, m, s3) == c + n + p by { FormPairsSnoc(r, m, s2, Position); }
    assert FormPairs(r, m, s4) == c + n + p + e by { FormPairsSnoc(r, m, s3, Email); }
    assert FormPairs(r, m, s5) == c + n + p + e + t by { FormPairsSnoc(r, m, s4, PhoneNumber); }
    assert FormPairs(r, m, s6) == c + n + p + e + t + w by { FormPairsSnoc(r, m, s5, WorkerCount); }
    assert s6 == Fields;
  }

  /** The fields of `fs` that have an entry id, in the order of `fs`. */
  function MappedFields(m: GoogleFormMapping, fs: seq<Field>): (kept: seq<Field>)
    ensures |kept| <= |fs|
    ensures forall f :: f in kept <==> f in fs && Get(m, f) != ""
  {
    if fs == [] then []
    else (if Get(m, fs[0]) != "" then [fs[0]] else []) + MappedFields(m, fs[1..])
  }

  /** The form payload holds one pair per mapped field, in order: the field's
      entry id with the field's value. */
  lemma {:induction false} FormPairsShape(r: BusinessData, m: GoogleFormMapping, fs: seq<Field>)
    ensures |FormPairs(r, m, fs)| == |MappedFields(m, fs)|
    ensures forall i :: 0 <= i < |FormPairs(r, m, fs)| ==>
              FormPairs(r, m, fs)[i] == (Get(m, MappedFields(m, fs)[i]), Get(r, MappedFields(m, fs)[i]))
  {
    if fs != [] {
      FormPairsShape(r, m, fs[1..]);
    }
  }

  /** A field contributes the pair (entry id, value) exactly when its entry id
      is not empty, and nothing else ever enters the payload; in particular no
      pair has an empty name. */
  lemma FormPayloadMembers(r: BusinessData, m: GoogleFormMapping)
    ensures forall f: Field :: Get(m, f) != "" ==> (Get(m, f), Get(r, f)) in FormPayload(r, m)
    ensures forall p :: p in FormPayload(r, m) ==>
              exists f: Field :: Get(m, f) != "" && p == (Get(m, f), Get(r, f))
    ensures forall p :: p in FormPayload(r, m) ==> p.0 != ""
  {
    FieldsEnumerateRecord();
    FormPairsShape(r, m, Fields);
    var kept := MappedFields(m, Fields);
    forall f: Field | Get(m, f) != "" ensures (Get(m, f), Get(r, f)) in FormPayload(r, m) {
      assert f in kept;
      var i :| 0 <= i < |kept| && kept[i] == f;
      assert FormPayload(r, m)[i] == (Get(m, f), Get(r, f));
    }
    forall p | p in FormPayload(r, m) ensures exists f: Field :: Get(m, f) != "" && p == (Get(m, f), Get(r, f)) {
      var i :| 0 <= i < |FormPayload(r, m)| && FormPayload(r, m)[i] == p;
      assert kept[i] in kept;
    }
  }

  /** For fields without repetition, the number of mapped fields is the size
      of the set of fields that have an entry id. */
  lemma {:induction false} MappedFieldsCount(m: GoogleFormMapping, fs: seq<Field>)
    requires forall i, j :: 0 <= i < j < |fs| ==> fs[i] != fs[j]
    ensures |MappedFields(m, fs)| == |set f | f in fs && Get(m, f) != ""|
  {
    if fs != [] {
      DistinctTail(fs);
      MappedFieldsCount(m, fs[1..]);
      MappedSetCons(m, fs);
    }
  }

  /** The mapped fields of a list are its head, when mapped, and the mapped
      fields of its tail. */
  lemma MappedSetCons(m: GoogleFormMapping, fs: seq<Field>)
    requires fs != [] && fs[0] !in fs[1..]
    ensures var rest := set f | f in fs[1..] && Get(m, f) != "";
            (set f | f in fs && Get(m, f) != "") == (if Get(m, fs[0]) != "" then rest + {fs[0]} else rest) &&
            fs[0] !in rest
  {
    assert fs == [fs[0]] + fs[1..];
  }

  /** The form payload has exactly as many pairs as there are fields with a
      non-empty entry id. */
  lemma FormPayloadLength(r: BusinessData, m: GoogleFormMapping)
    ensures |FormPayload(r, m)| == |set f: Field | f in Fields && Get(m, f) != ""|
  {
    FieldsEnumerateRecord();
    FormPairsShape(r, m, Fields);
    MappedFieldsCount(m, Fields);
  }

  /** The send handler's form branch: one `append` per mapped field, in the
      order of the record's keys. */
  method BuildFormPayload(r: BusinessData, m: GoogleFormMapping) returns (form: seq<Entry>)
    ensures form == FormPayload(r, m)
  {
    form := [];
    if m.companyName != "" { form := form + [(m.companyName, r.companyName)]; }
    assert form == FormStep(r, m, CompanyName);
    if m.representativeName != "" { form := form + [(m.representativeName, r.representativeName)]; }
    assert form == FormStep(r, m, CompanyName) + FormStep(r, m, RepresentativeName);
    if m.position != "" { form := form + [(m.position, r.position)]; }
    assert form == FormStep(r, m, CompanyName) + FormStep(r, m, RepresentativeName) + FormStep(r, m, Position);
    if m.email != "" { form := form + [(m.email, r.email)]; }
    assert form == FormStep(r, m, CompanyName) + FormStep(r, m, RepresentativeName) + FormStep(r, m, Position) +
      FormStep(r, m, Email);
    if m.phoneNumber != "" { form := form + [(m.phoneNumber, r.phoneNumber)]; }
    assert form == FormStep(r, m, CompanyName) + FormStep(r, m, RepresentativeName) + FormStep(r, m, Position) +
      FormStep(r, m, Email) + FormStep(r, m, PhoneNumber);
    if m.workerCount != "" { form := form + [(m.workerCount, r.workerCount)]; }
    FormPayloadUnrolled(r, m);
  }

  // ---------------------------------------------------------------------
  // Ordered dictionary (a JavaScript object used as a string map)
  // ---------------------------------------------------------------------

  /** The keys of a dictionary, in insertion order. */
  function Keys(d: seq<Entry>): (ks: seq<string>)
    ensures |ks| == |d|
    ensures forall i :: 0 <= i < |d| ==> ks[i] == d[i].0
  {
    seq(|d|, i requires 0 <= i < |d| => d[i].0)
  }

  /** No key appears twice. */
  predicate DistinctKeys(d: seq<Entry>)
  {
    forall i, j :: 0 <= i < j < |d| ==> d[i].0 != d[j].0
  }

  /** The position of the first `k` in `ks`. */
  function FirstIndex(ks: seq<string>, k: string): (r: Option<nat>)
    ensures r.None? <==> k !in ks
    ensures r.Some? ==> r.value < |ks| && ks[r.value] == k && forall j :: 0 <= j < r.value ==> ks[j] != k
  {
    if ks == [] then None
    else if ks[0] == k then Some(0)
    else match FirstIndex(ks[1..], k)
      case None => None
      case Some(i) => Some(i + 1)
  }

  /** `d[k]`, or None when `k` is absent. */
  function Lookup(d: seq<Entry>, k: string): (r: Option<string>)
    ensures r.None? <==> k !in Keys(d)
    ensures r.Some? ==> (k, r.value) in d
  {
    match FirstIndex(Keys(d), k)
    case None => None
    case Some(i) => Some(d[i].1)
  }

  /** `d[k] = v`: an existing key keeps its place and takes the new value, a
      new key is added at the end. */
  function Put(d: seq<Entry>, k: string, v: string): (r: seq<Entry>)
    ensures Lookup(r, k) == Some(v)
    ensures forall k' :: k' != k ==> Lookup(r, k') == Lookup(d, k')
    ensures k in Keys(d) ==> Keys(r) == Keys(d)
    ensures k !in Keys(d) ==> r == d + [(k, v)]
    ensures DistinctKeys(d) ==> DistinctKeys(r)
  {
    match FirstIndex(Keys(d), k)
    case None =>
      var r := d + [(k, v)];
      assert Keys(r) == Keys(d) + [k];
      FirstIndexAppend(Keys(d), k);
      r
    case Some(i) =>
      var r := d[i := (k, v)];
      assert Keys(r) == Keys(d);
      r
  }

  /** A position holding `k` with no `k` before it is the first position. */
  lemma FirstIndexAt(ks: seq<string>, k: string, i: nat)
    requires i < |ks| && ks[i] == k
    requires forall j :: 0 <= j < i ==> ks[j] != k
    ensures FirstIndex(ks, k) == Some(i)
  {
    var r := FirstIndex(ks, k);
    assert ks[i] in ks;
    assert r.value <= i;
  }

  /** Appending a key moves no earlier first position and places a new key
      last. */
  lemma FirstIndexAppend(ks: seq<string>, k: string)
    ensures forall k' :: k' in ks ==> FirstIndex(ks + [k], k') == FirstIndex(ks, k')
    ensures k !in ks ==> FirstIndex(ks + [k], k) == Some(|ks|)
  {
    var ext := ks + [k];
    forall k' | k' in ks ensures FirstIndex(ext, k') == FirstIndex(ks, k') {
      var b := FirstIndex(ks, k');
      FirstIndexAt(ext, k', b.value);
    }
    if k !in ks {
      FirstIndexAt(ext, k, |ks|);
    }
  }

  // ---------------------------------------------------------------------
  // Webhook strategy
  // ---------------------------------------------------------------------

  /** `mapping[key] || key`: the mapped JSON key, or the field's own key name
      when the mapping is empty. */
  function DestKey(m: BusinessData, f: Field): (k: string)
    ensures k != ""
    ensures Get(m, f) != "" ==> k == Get(m, f)
    ensures Get(m, f) == "" ==> k == KeyName(f)
  {
    if Get(m, f) != "" then Get(m, f) else KeyName(f)
  }

  /** The dictionary after writing the fields `fs` one after the other. */
  function WebhookWrites(r: BusinessData, m: BusinessData, fs: seq<Field>): seq<Entry>
  {
    if fs == [] then []
    else
      var last := fs[|fs| - 1];
      Put(WebhookWrites(r, m, fs[..|fs| - 1]), DestKey(m, last), Get(r, last))
  }

  /** Writing one more field puts its value under its destination key. */
  lemma WebhookWritesStep(r: BusinessData, m: BusinessData, fs: seq<Field>, i: nat)
    requires i < |fs|
    ensures WebhookWrites(r, m, fs[..i + 1]) == Put(WebhookWrites(r, m, fs[..i]), DestKey(m, fs[i]), Get(r, fs[i]))
  {
    assert fs[..i + 1][..i] == fs[..i];
  }

  /** The webhook payload for the whole record. */
  function WebhookPayload(r: BusinessData, m: BusinessData): seq<Entry>
  {
    WebhookWrites(r, m, Fields)
  }

  /** The payload's keys are exactly the destination keys of the written
      fields, each once. */
  lemma {:induction false} WebhookKeys(r: BusinessData, m: BusinessData, fs: seq<Field>)
    ensures DistinctKeys(WebhookWrites(r, m, fs))
    ensures forall k :: k in Keys(WebhookWrites(r, m, fs)) <==> exists f :: f in fs && DestKey(m, f) == k
  {
    if fs != [] {
      var init, last := fs[..|fs| - 1], fs[|fs| - 1];
      assert fs == init + [last];
      WebhookKeys(r, m, init);
      var prev := WebhookWrites(r, m, init);
      forall k ensures k in Keys(WebhookWrites(r, m, fs)) <==> exists f :: f in fs && DestKey(m, f) == k {
        if k == DestKey(m, last) {
          assert Lookup(WebhookWrites(r, m, fs), k).Some?;
        } else {
          assert Lookup(WebhookWrites(r, m, fs), k) == Lookup(prev, k);
          if exists f :: f in fs && DestKey(m, f) == k {
            var f :| f in fs && DestKey(m, f) == k;
            assert f in init;
          }
        }
      }
    }
  }

  /** Later writes win: a field whose destination key no later field shares
      has its value under that key. */
  lemma {:induction false} WebhookLastWriteWins(r: BusinessData, m: BusinessData, fs: seq<Field>, i: nat)
    requires i < |fs|
    requires forall j :: i < j < |fs| ==> DestKey(m, fs[j]) != DestKey(m, fs[i])
    ensures Lookup(WebhookWrites(r, m, fs), DestKey(m, fs[i])) == Some(Get(r, fs[i]))
  {
    var init := fs[..|fs| - 1];
    if i < |fs| - 1 {
      assert DestKey(m, fs[|fs| - 1]) != DestKey(m, fs[i]);
      WebhookLastWriteWins(r, m, init, i);
    }
  }

  /** A key no field is sent to is absent from the payload. */
  lemma WebhookOnlyDestKeys(r: BusinessData, m: BusinessData, k: string)
    requires forall f: Field :: DestKey(m, f) != k
    ensures Lookup(WebhookPayload(r, m), k) == None
  {
    WebhookKeys(r, m, Fields);
  }

  /** When the destination keys are pairwise distinct nothing is overwritten:
      the payload lists every field's value under its destination key, in
      order. */
  lemma {:induction false} WebhookDistinctKeys(r: BusinessData, m: BusinessData, fs: seq<Field>)
    requires forall i, j :: 0 <= i < j < |fs| ==> DestKey(m, fs[i]) != DestKey(m, fs[j])
    ensures |WebhookWrites(r, m, fs)| == |fs|
    ensures forall i :: 0 <= i < |fs| ==> WebhookWrites(r, m, fs)[i] == (DestKey(m, fs[i]), Get(r, fs[i]))
  {
    if fs != [] {
      var init, last := fs[..|fs| - 1], fs[|fs| - 1];
      WebhookDistinctKeys(r, m, init);
      var prev := WebhookWrites(r, m, init);
      var k := DestKey(m, last);
      var w := WebhookWrites(r, m, fs);
      assert w == prev + [(k, Get(r, last))] by {
        forall i | 0 <= i < |prev| ensures Keys(prev)[i] != k {
          assert init[i] == fs[i];
        }
        assert k !in Keys(prev);
      }
      forall i | 0 <= i < |fs| ensures w[i] == (DestKey(m, fs[i]), Get(r, fs[i])) {
        if i < |init| {
          assert init[i] == fs[i];
        }
      }
    }
  }

  /** A dictionary without repeated keys has as many entries as keys. */
  lemma {:induction false} DistinctKeysCount(d: seq<Entry>)
    requires DistinctKeys(d)
    ensures |set k | k in Keys(d)| == |d|
  {
    DistinctCount(Keys(d));
  }

  /** A list without repeats has as many elements as its set of elements. */
  lemma {:induction false} DistinctCount(ks: seq<string>)
    requires forall i, j :: 0 <= i < j < |ks| ==> ks[i] != ks[j]
    ensures |set k | k in ks| == |ks|
  {
    if ks != [] {
      var rest := ks[1..];
      DistinctTail(ks);
      DistinctCount(rest);
      SetOfCons(ks);
      var others := set k | k in rest;
      assert ks[0] !in others;
    }
  }

  /** Dropping the head of a list without repeats leaves one without repeats
      that does not hold the head. */
  lemma DistinctTail<T>(ks: seq<T>)
    requires ks != []
    requires forall i, j :: 0 <= i < j < |ks| ==> ks[i] != ks[j]
    ensures forall i, j :: 0 <= i < j < |ks[1..]| ==> ks[1..][i] != ks[1..][j]
    ensures ks[0] !in ks[1..]
  {
    var rest := ks[1..];
    forall i | 0 <= i < |rest| ensures rest[i] != ks[0] {
      assert rest[i] == ks[i + 1];
    }
  }

  /** The elements of a list are its head and the elements of its tail. */
  lemma SetOfCons<T>(ks: seq<T>)
    requires ks != []
    ensures (set k | k in ks) == (set k | k in ks[1..]) + {ks[0]}
  {
    assert ks == [ks[0]] + ks[1..];
  }

  /** The payload has one entry per distinct destination key: six when the
      destination keys are pairwise distinct, fewer when some of them
      collide. */
  lemma WebhookPayloadSize(r: BusinessData, m: BusinessData)
    ensures |WebhookPayload(r, m)| == |set f: Field | f in Fields :: DestKey(m, f)|
  {
    var p := WebhookPayload(r, m);
    WebhookKeys(r, m, Fields);
    DistinctKeysCount(p);
    assert (set k | k in Keys(p)) == (set f: Field | f in Fields :: DestKey(m, f));
  }

  /** With pairwise distinct destination keys the payload has exactly six
      entries, one per field in the record's order. */
  lemma WebhookPayloadDistinct(r: BusinessData, m: BusinessData)
    requires forall i, j :: 0 <= i < j < |Fields| ==> DestKey(m, Fields[i]) != DestKey(m, Fields[j])
    ensures |WebhookPayload(r, m)| == 6
    ensures forall i :: 0 <= i < 6 ==> WebhookPayload(r, m)[i] == (DestKey(m, Fields[i]), Get(r, Fields[i]))
  {
    WebhookDistinctKeys(r, m, Fields);
  }

  /** Under the default identity mapping no two fields share a destination
      key. */
  lemma DefaultDestKeysDistinct()
    ensures forall i, j :: 0 <= i < j < |Fields| ==>
              DestKey(DefaultWebhookMapping, Fields[i]) != DestKey(DefaultWebhookMapping, Fields[j])
  {
    FieldsEnumerateRecord();
    DefaultMappings();
    forall i, j | 0 <= i < j < |Fields|
      ensures DestKey(DefaultWebhookMapping, Fields[i]) != DestKey(DefaultWebhookMapping, Fields[j])
    {
      KeyNameInjective(Fields[i], Fields[j]);
    }
  }

  /** The record as a JSON object: each field's value under its own key
      name, in the record's order. */
  function RecordEntries(r: BusinessData): seq<Entry>
  {
    seq(|Fields|, i requires 0 <= i < |Fields| => (KeyName(Fields[i]), Get(r, Fields[i])))
  }

  /** With the default identity mapping the payload is the record itself,
      key for key and in the record's order. */
  lemma WebhookDefaultMapping(r: BusinessData)
    ensures WebhookPayload(r, DefaultWebhookMapping) == RecordEntries(r)
  {
    var m := DefaultWebhookMapping;
    DefaultDestKeysDistinct();
    WebhookPayloadDistinct(r, m);
    DefaultMappings();
    var p, q := WebhookPayload(r, m), RecordEntries(r);
    assert |p| == |q|;
    forall i | 0 <= i < |p| ensures p[i] == q[i] {
      assert DestKey(m, Fields[i]) == KeyName(Fields[i]);
    }
  }

  /** The send handler's webhook branch: a loop over the record's keys that
      writes each value under its destination key. */
  method BuildWebhookPayload(r: BusinessData, m: BusinessData) returns (payload: seq<Entry>)
    ensures payload == WebhookPayload(r, m)
  {
    payload := [];
    for i := 0 to |Fields|
      invariant payload == WebhookWrites(r, m, Fields[..i])
    {
      var key := Fields[i];
      var destinationKey := if Get(m, key) != "" then Get(m, key) else KeyName(key);
      payload := Put(payload, destinationKey, Get(r, key));
      WebhookWritesStep(r, m, Fields, i);
    }
    assert Fields[..|Fields|] == Fields;
  }
}
