/** When a request with a known id is a retry of the same request. Mirrors `buildRequestFingerprintFromPayload` and
    `assertRequestFingerprintMatches` of src/jobs/jobs.service.ts; the hash is any function without collisions. */
module RequestFingerprint {
  import JsonReader
  import opened Ascii
  import opened JsonData
  import opened StableJson
  import opened StableJsonMeaning
  import opened StableJsonNormal
  import opened Wrappers

  type Digest = nat

  /** What a request asks for. A field that was not given is `Undefined`. */
  datatype Payload = Payload(prompt: Value, mode: Option<Text>, cwd: Value, notifyUrl: Value, originRoutingKey: Value,
                             source: Value, sourceName: Value, metadata: Value)
  {
    predicate Valid() {
      && WellFormed(prompt) && WellFormed(cwd) && WellFormed(notifyUrl) && WellFormed(originRoutingKey)
      && WellFormed(source) && WellFormed(sourceName) && WellFormed(metadata)
    }

    function Mode(): Text {
      mode.GetOr(Codes("exec"))
    }
  }

  function Fields(p: Payload, includeMode: bool): seq<Member> {
    [Member(Codes("prompt"), p.prompt)]
    + (if includeMode then [Member(Codes("executionMode"), Str(p.Mode()))] else [])
    + [Member(Codes("cwd"), p.cwd), Member(Codes("notifyUrl"), p.notifyUrl),
       Member(Codes("originRoutingKey"), p.originRoutingKey), Member(Codes("source"), p.source),
       Member(Codes("sourceName"), p.sourceName), Member(Codes("metadata"), p.metadata)]
  }

  function Fingerprint(hash: Text -> Digest, p: Payload, includeMode: bool): Digest {
    hash(Print(Obj(Fields(p, includeMode))))
  }

  predicate HasId(id: Option<Text>) {
    id.Some? && id.value != []
  }

  /** A job as stored: its request id, its payload, and the fingerprint it was given, if any. */
  datatype Stored = Stored(requestId: Option<Text>, payload: Payload, fingerprint: Option<Digest>)

  /** Whether the retry passes, branch by branch. */
  predicate Accepts(hash: Text -> Digest, existing: Stored, requestId: Option<Text>, incoming: Payload) {
    if !HasId(existing.requestId) || !HasId(requestId) then true
    else
      var incomingCurrent := Fingerprint(hash, incoming, true);
      var existingCurrent := Fingerprint(hash, existing.payload, true);
      if existing.fingerprint == Some(incomingCurrent) || existingCurrent == incomingCurrent then true
      else
        var incomingLegacy := Fingerprint(hash, incoming, false);
        var existingLegacy := Fingerprint(hash, existing.payload, false);
        && existing.payload.Mode() == incoming.Mode()
        && (existing.fingerprint.None? || existing.fingerprint == Some(existingLegacy))
        && incomingLegacy == existingLegacy
  }

  ghost predicate CollisionFree(hash: Text -> Digest) {
    forall a, b :: hash(a) == hash(b) ==> a == b
  }

  // The same field of two payloads: given in both or in neither, and the same.
  predicate SameField(x: Value, y: Value) {
    (x.Undefined? <==> y.Undefined?) && Same(x, y)
  }

  /** Two payloads ask for the same, apart from the mode. */
  predicate SameRequest(p: Payload, q: Payload) {
    && SameField(p.prompt, q.prompt) && SameField(p.cwd, q.cwd) && SameField(p.notifyUrl, q.notifyUrl)
    && SameField(p.originRoutingKey, q.originRoutingKey) && SameField(p.source, q.source)
    && SameField(p.sourceName, q.sourceName) && SameField(p.metadata, q.metadata)
  }

  // ----- payloads as objects -----

  predicate Aligned(a: seq<Member>, b: seq<Member>) {
    && |a| == |b| && (forall i :: 0 <= i < |a| ==> a[i].key == b[i].key)
    && (forall i, j :: 0 <= i < j < |a| ==> a[i].key != a[j].key)
  }

  lemma AlignedCovered(a: seq<Member>, b: seq<Member>)
    requires Aligned(a, b)
    ensures Covered(a, b) <==> forall i :: 0 <= i < |a| && !a[i].value.Undefined? ==> !b[i].value.Undefined?
  {
    if forall i :: 0 <= i < |a| && !a[i].value.Undefined? ==> !b[i].value.Undefined? {
      forall i | 0 <= i < |a| && !a[i].value.Undefined? ensures Matching(a[i], b[i]) {}
    }
  }

  // Objects with the same keys are compared field by field.
  lemma AlignedSame(a: seq<Member>, b: seq<Member>)
    requires Aligned(a, b)
    ensures Same(Obj(a), Obj(b)) <==> forall i :: 0 <= i < |a| ==> SameField(a[i].value, b[i].value)
  {
    hide Covered;
    AlignedCovered(a, b);
    AlignedCovered(b, a);
    assert forall i, j :: 0 <= i < |a| && 0 <= j < |b| && Matching(a[i], b[j]) ==> i == j;
    assert forall i :: 0 <= i < |a| && !a[i].value.Undefined? && !b[i].value.Undefined? ==> Matching(a[i], b[i]);
  }

  // The lengths of the keys tell all but two of them apart.
  function KeyLengths(includeMode: bool): seq<nat> {
    [6] + (if includeMode then [13] else []) + [3, 9, 16, 6, 10, 8]
  }

  lemma FieldKeys(p: Payload, includeMode: bool)
    ensures var a, lengths := Fields(p, includeMode), KeyLengths(includeMode);
            && |a| == |lengths| && (forall i :: 0 <= i < |a| ==> |a[i].key| == lengths[i])
            && a[0].key[0] == 112 && a[|a| - 3].key[0] == 115
  {
  }

  lemma KeysShared(p: Payload, q: Payload, includeMode: bool)
    ensures |Fields(p, includeMode)| == |Fields(q, includeMode)|
    ensures forall i :: 0 <= i < |Fields(p, includeMode)| ==> Fields(p, includeMode)[i].key == Fields(q, includeMode)[i].key
  {
  }

  lemma LengthsDiffer(includeMode: bool, i: nat, j: nat)
    requires i < j < |KeyLengths(includeMode)| && KeyLengths(includeMode)[i] == KeyLengths(includeMode)[j]
    ensures i == 0 && j == |KeyLengths(includeMode)| - 3
  {
  }

  lemma FieldsAligned(p: Payload, q: Payload, includeMode: bool)
    ensures Aligned(Fields(p, includeMode), Fields(q, includeMode))
  {
    hide Fields, KeyLengths;
    KeysShared(p, q, includeMode);
    FieldKeys(p, includeMode);
    var a := Fields(p, includeMode);
    forall i, j | 0 <= i < j < |a| ensures a[i].key != a[j].key {
      if |a[i].key| == |a[j].key| {
        LengthsDiffer(includeMode, i, j);
      }
    }
  }

  lemma FieldsWellFormed(p: Payload, includeMode: bool)
    requires p.Valid()
    ensures WellFormed(Obj(Fields(p, includeMode)))
  {
    hide Payload.Mode;
    FieldsAligned(p, p, includeMode);
  }

  lemma FieldsSame(p: Payload, q: Payload, includeMode: bool)
    ensures Same(Obj(Fields(p, includeMode)), Obj(Fields(q, includeMode)))
       <==> SameRequest(p, q) && (includeMode ==> p.Mode() == q.Mode())
  {
    hide Same, SameField;
    var a, b := Fields(p, includeMode), Fields(q, includeMode);
    FieldsAligned(p, q, includeMode);
    AlignedSame(a, b);
    var k := if includeMode then 1 else 0;
    assert includeMode ==> (SameField(a[1].value, b[1].value) <==> p.Mode() == q.Mode()) by { StringsSame(p.Mode(), q.Mode()); }
    assert a[0].value == p.prompt && a[k + 1].value == p.cwd && a[k + 2].value == p.notifyUrl
        && a[k + 3].value == p.originRoutingKey && a[k + 4].value == p.source && a[k + 5].value == p.sourceName
        && a[k + 6].value == p.metadata;
    assert b[0].value == q.prompt && b[k + 1].value == q.cwd && b[k + 2].value == q.notifyUrl
        && b[k + 3].value == q.originRoutingKey && b[k + 4].value == q.source && b[k + 5].value == q.sourceName
        && b[k + 6].value == q.metadata;
  }

  lemma StringsSame(s: Text, t: Text)
    ensures SameField(Str(s), Str(t)) <==> s == t
  {
  }

  // A fingerprint without a mode is never one with a mode.
  lemma LegacyDiffers(hash: Text -> Digest, p: Payload, q: Payload)
    requires CollisionFree(hash) && p.Valid() && q.Valid()
    ensures Fingerprint(hash, p, false) != Fingerprint(hash, q, true)
  {
    var a, b := Fields(p, false), Fields(q, true);
    FieldsWellFormed(p, false);
    FieldsWellFormed(q, true);
    PrintCanonical(Obj(a), Obj(b));
    assert !Covered(b, a) by {
      assert b[1].value == Str(q.Mode());
      forall j | 0 <= j < |a| ensures !Matching(b[1], a[j]) {
        ModeKeyIsNew(p, j);
      }
    }
  }

  lemma ModeKeyIsNew(p: Payload, j: nat)
    requires j < |Fields(p, false)|
    ensures Fields(p, false)[j].key != Codes("executionMode")
  {
  }

  lemma FingerprintSame(hash: Text -> Digest, p: Payload, q: Payload, includeMode: bool)
    requires CollisionFree(hash) && p.Valid() && q.Valid()
    ensures Fingerprint(hash, p, includeMode) == Fingerprint(hash, q, includeMode)
       <==> SameRequest(p, q) && (includeMode ==> p.Mode() == q.Mode())
  {
    hide Fields, Print, SameRequest, Payload.Mode, Payload.Valid, WellFormed, Same;
    FieldsWellFormed(p, includeMode);
    FieldsWellFormed(q, includeMode);
    FieldsSame(p, q, includeMode);
    PrintCanonical(Obj(Fields(p, includeMode)), Obj(Fields(q, includeMode)));
  }

  /** A retry passes exactly when the stored fingerprint is its own, or the stored payload asks for the same: the branch
      for jobs with an old fingerprint lets nothing else through. */
  lemma AcceptedRetries(hash: Text -> Digest, existing: Stored, requestId: Option<Text>, incoming: Payload)
    requires CollisionFree(hash) && existing.payload.Valid() && incoming.Valid()
    requires HasId(existing.requestId) && HasId(requestId)
    ensures Accepts(hash, existing, requestId, incoming) <==>
              || existing.fingerprint == Some(Fingerprint(hash, incoming, true))
              || (SameRequest(existing.payload, incoming) && existing.payload.Mode() == incoming.Mode())
  {
    hide Fingerprint, SameRequest, Payload.Mode, Payload.Valid;
    FingerprintSame(hash, existing.payload, incoming, true);
    FingerprintSame(hash, incoming, existing.payload, false);
    FingerprintSame(hash, existing.payload, incoming, false);
  }

  /** For a job that still carries the fingerprint of its own payload, a retry passes exactly when it asks for the same. */
  lemma AcceptedRetriesOfIntactJobs(hash: Text -> Digest, existing: Stored, requestId: Option<Text>, incoming: Payload)
    requires CollisionFree(hash) && existing.payload.Valid() && incoming.Valid()
    requires HasId(existing.requestId) && HasId(requestId)
    requires existing.fingerprint in {None, Some(Fingerprint(hash, existing.payload, true)),
                                      Some(Fingerprint(hash, existing.payload, false))}
    ensures Accepts(hash, existing, requestId, incoming) <==>
              SameRequest(existing.payload, incoming) && existing.payload.Mode() == incoming.Mode()
  {
    hide Fingerprint, SameRequest, Payload.Mode, Payload.Valid, Accepts;
    AcceptedRetries(hash, existing, requestId, incoming);
    FingerprintSame(hash, existing.payload, incoming, true);
    LegacyDiffers(hash, existing.payload, incoming);
  }

  // ----- what a fingerprint says -----

  /** The member `key` of what was read says `value`, or is not there when `value` is undefined. */
  predicate SaysField(j: Json, key: Text, value: Value) {
    j.JObj? && if value.Undefined? then forall k :: 0 <= k < |j.entries| ==> j.entries[k].0 != key
               else SaysMember(j.entries, Member(key, value))
  }

  lemma FieldSaid(j: Json, fields: seq<Member>, i: nat)
    requires Says(j, Obj(fields)) && i < |fields|
    requires forall a, b :: 0 <= a < b < |fields| ==> fields[a].key != fields[b].key
    ensures SaysField(j, fields[i].key, fields[i].value)
  {
    hide SaysMember;
    if fields[i].value.Undefined? {
      forall k | 0 <= k < |j.entries| ensures j.entries[k].0 != fields[i].key {
        assert IsMember(j.entries[k], fields);
      }
    }
  }

  lemma FieldsAt(p: Payload, includeMode: bool)
    ensures var f := Fields(p, includeMode); var k := if includeMode then 1 else 0;
            && |f| == 7 + k && f[0] == Member(Codes("prompt"), p.prompt)
            && (includeMode ==> f[1] == Member(Codes("executionMode"), Str(if p.mode.Some? then p.mode.value else Codes("exec"))))
            && f[k + 1] == Member(Codes("cwd"), p.cwd) && f[k + 2] == Member(Codes("notifyUrl"), p.notifyUrl)
            && f[k + 3] == Member(Codes("originRoutingKey"), p.originRoutingKey) && f[k + 4] == Member(Codes("source"), p.source)
            && f[k + 5] == Member(Codes("sourceName"), p.sourceName) && f[k + 6] == Member(Codes("metadata"), p.metadata)
  {
    hide Codes;
  }

  /** What is hashed is a JSON object that says what the request asks for, member by member, and the mode in the current form,
      where a request without one asks for `exec`. */
  lemma FingerprintSaysRequest(hash: Text -> Digest, p: Payload, includeMode: bool) returns (text: Text, j: Json)
    requires p.Valid()
    ensures Fingerprint(hash, p, includeMode) == hash(text) && JsonReader.Read(text) == Some(j)
    ensures SaysField(j, Codes("prompt"), p.prompt) && SaysField(j, Codes("cwd"), p.cwd)
    ensures SaysField(j, Codes("notifyUrl"), p.notifyUrl) && SaysField(j, Codes("originRoutingKey"), p.originRoutingKey)
    ensures SaysField(j, Codes("source"), p.source) && SaysField(j, Codes("sourceName"), p.sourceName)
    ensures SaysField(j, Codes("metadata"), p.metadata)
    ensures includeMode ==> SaysField(j, Codes("executionMode"), Str(if p.mode.Some? then p.mode.value else Codes("exec")))
  {
    var fields := Fields(p, includeMode);
    text := Print(Obj(fields));
    FieldsWellFormed(p, includeMode);
    PrintSaysValue(Obj(fields));
    j := JsonReader.Read(text).value;
    FieldsAligned(p, p, includeMode);
    FieldsAt(p, includeMode);
    hide Fields, Print, JsonReader.Read, Says, SaysField, Codes, WellFormed;
    forall i | 0 <= i < |fields| ensures SaysField(j, fields[i].key, fields[i].value) {
      FieldSaid(j, fields, i);
    }
  }

  // ----- what is hashed -----

  /** No surrogate stands alone, so the text survives the encoding to bytes that hashing it takes. */
  predicate WellPaired(t: Text) {
    t == [] || if Paired(t) then WellPaired(t[2..]) else !HighSurrogate(t[0]) && !LowSurrogate(t[0]) && WellPaired(t[1..])
  }

  lemma {:induction false} WellPairedConcat(a: Text, b: Text)
    requires WellPaired(a) && WellPaired(b)
    ensures WellPaired(a + b)
  {
    if a == [] {
      assert a + b == b;
    } else if Paired(a) {
      WellPairedConcat(a[2..], b);
      assert (a + b)[2..] == a[2..] + b;
    } else {
      WellPairedConcat(a[1..], b);
      assert (a + b)[1..] == a[1..] + b;
    }
  }

  predicate Plain(t: Text) {
    forall i :: 0 <= i < |t| ==> t[i] < 0x80
  }

  lemma {:induction false} PlainIsWellPaired(t: Text)
    requires Plain(t)
    ensures WellPaired(t)
  {
    if t != [] {
      PlainIsWellPaired(t[1..]);
    }
  }

  lemma EscapeIsWellPaired(u: Unit)
    ensures WellPaired(Escape(u))
  {
    if |Escape(u)| > 1 {
      assert Plain(Escape(u));
      PlainIsWellPaired(Escape(u));
    } else {
      assert Escape(u)[1..] == [];
    }
  }

  lemma {:induction false} BodyIsWellPaired(s: Text)
    ensures WellPaired(Body(s))
  {
    if s == [] {
    } else if Paired(s) {
      BodyIsWellPaired(s[2..]);
      assert s[..2][2..] == [];
      WellPairedConcat(s[..2], Body(s[2..]));
    } else {
      BodyIsWellPaired(s[1..]);
      EscapeIsWellPaired(s[0]);
      WellPairedConcat(Escape(s[0]), Body(s[1..]));
    }
  }

  lemma QuoteIsWellPaired(s: Text)
    ensures WellPaired(Quote(s))
  {
    BodyIsWellPaired(s);
    PlainIsWellPaired([QUOTE]);
    WellPairedConcat([QUOTE], Body(s));
    WellPairedConcat([QUOTE] + Body(s), [QUOTE]);
  }

  lemma {:induction false} JoinIsWellPaired(parts: seq<Text>)
    requires forall i :: 0 <= i < |parts| ==> WellPaired(parts[i])
    ensures WellPaired(Join(parts))
  {
    if |parts| > 1 {
      JoinIsWellPaired(parts[1..]);
      PlainIsWellPaired([COMMA]);
      WellPairedConcat(parts[0], [COMMA]);
      WellPairedConcat(parts[0] + [COMMA], Join(parts[1..]));
    }
  }

  lemma WrapIsWellPaired(open: Unit, inner: Text, close: Unit)
    requires open < 0x80 && close < 0x80 && WellPaired(inner)
    ensures WellPaired([open] + inner + [close])
  {
    PlainIsWellPaired([open]);
    PlainIsWellPaired([close]);
    WellPairedConcat([open], inner);
    WellPairedConcat([open] + inner, [close]);
  }

  lemma PairsAreWellPaired(entries: seq<(Text, Text)>)
    requires forall i :: 0 <= i < |entries| ==> WellPaired(entries[i].1)
    ensures forall i :: 0 <= i < |entries| ==> WellPaired(Pairs(entries)[i])
  {
    forall i | 0 <= i < |entries| ensures WellPaired(Pairs(entries)[i]) {
      QuoteIsWellPaired(entries[i].0);
      PlainIsWellPaired([COLON]);
      WellPairedConcat(Quote(entries[i].0), [COLON]);
      WellPairedConcat(Quote(entries[i].0) + [COLON], entries[i].1);
    }
  }

  /** Every printed text is well-formed UTF-16, whatever strings the value holds. */
  lemma {:induction false} PrintIsWellPaired(v: Value)
    ensures WellPaired(Print(v))
  {
    match v
    case Str(s) => QuoteIsWellPaired(s);
    case Arr(items) =>
      forall i | 0 <= i < |items| ensures WellPaired(Print(items[i])) {
        PrintIsWellPaired(items[i]);
      }
      JoinIsWellPaired(PrintItems(items, v));
      WrapIsWellPaired(OPEN_BRACKET, Join(PrintItems(items, v)), CLOSE_BRACKET);
    case Obj(members) =>
      var entries := SortByKey(Present(PrintMembers(members, v)));
      forall i | 0 <= i < |entries| ensures WellPaired(entries[i].1) {
        assert entries[i] in entries;
        assert (entries[i].0, Some(entries[i].1)) in PrintMembers(members, v);
        var j :| 0 <= j < |members| && PrintMembers(members, v)[j] == (entries[i].0, Some(entries[i].1));
        PrintIsWellPaired(members[j].value);
      }
      PairsAreWellPaired(entries);
      JoinIsWellPaired(Pairs(entries));
      WrapIsWellPaired(OPEN_BRACE, Join(Pairs(entries)), CLOSE_BRACE);
    case _ => PlainIsWellPaired(Print(v));
  }
}
