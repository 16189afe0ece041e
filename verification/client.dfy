/** Client lines: a parsed JSON object mapped onto an event (parseClient,
    checkClientForAdvancedFields, the `clientFields` table). */
module Client {
  import opened Wrappers
  import opened Json
  import opened Events

  /** The keys a client object may carry that are not extension data. */
  const ClientFields: set<string> :=
    {"type", "message", "error", "timestamp", "environment", "ip", "app"}

  /** The names an object literal inherits from Object.prototype; `clientFields[k]` is a
      truthy function (or the prototype itself) for every one of them. */
  const ObjectPrototypeNames: set<string> :=
    {"constructor", "__defineGetter__", "__defineSetter__", "hasOwnProperty",
     "__lookupGetter__", "__lookupSetter__", "isPrototypeOf", "propertyIsEnumerable",
     "toString", "valueOf", "__proto__", "toLocaleString"}

  /** The forEach of checkClientForAdvancedFields over the keys in order, with the
      lookup table abstracted to the set of names it treats as known: the accumulator
      stays null until the first unknown key, which creates it, and every unknown key
      is then copied with its value. */
  function CollectUnknown(fs: JsonObject, known: set<string>): (r: Option<JsonObject>)
    ensures r.None? <==> forall i | 0 <= i < |fs| :: fs[i].key in known
    ensures r.Some? ==> forall f :: f in r.value <==> f in fs && f.key !in known
    decreases |fs|
  {
    if |fs| == 0 then None
    else
      var prefix: JsonObject := fs[..|fs| - 1];
      var f := fs[|fs| - 1];
      var acc := CollectUnknown(prefix, known);
      SplitLast(fs);
      if f.key in known then acc
      else
        var before := acc.GetOr([]);
        LastKeyIsFresh(fs, before);
        var after: JsonObject := before + [f];
        Some(after)
  }

  /** The fields of a non-empty object are those of its prefix and its last one. */
  lemma SplitLast(fs: JsonObject)
    requires |fs| > 0
    ensures DistinctKeys(fs[..|fs| - 1])
    ensures forall g :: g in fs <==> g in fs[..|fs| - 1] || g == fs[|fs| - 1]
  {
    assert fs == fs[..|fs| - 1] + [fs[|fs| - 1]];
  }

  /** Fields drawn from the prefix never share the last field's key, so appending the
      last field keeps keys distinct. */
  lemma LastKeyIsFresh(fs: JsonObject, before: JsonObject)
    requires |fs| > 0
    requires forall g | g in before :: g in fs[..|fs| - 1]
    ensures DistinctKeys(before + [fs[|fs| - 1]])
  {
    var f := fs[|fs| - 1];
    forall g | g in before
      ensures g.key != f.key
    {
      var i :| 0 <= i < |fs| - 1 && fs[..|fs| - 1][i] == g;
      assert fs[i] == g;
    }
    var all := before + [f];
    forall i, j | 0 <= i < j < |all|
      ensures all[i].key != all[j].key
    {
      if j == |all| - 1 {
        assert all[i] in before;
      }
    }
  }

  /** checkClientForAdvancedFields as evidently intended: `null` exactly when every key
      is one of the seven client fields, otherwise an object holding exactly the other
      keys, each with its original value. */
  function CheckClientForAdvancedFields(obj: JsonObject): (r: Option<JsonObject>)
    ensures r.None? <==> forall i | 0 <= i < |obj| :: obj[i].key in ClientFields
    ensures r.Some? ==> forall f :: f in r.value <==> f in obj && f.key !in ClientFields
  {
    CollectUnknown(obj, ClientFields)
  }

  /** checkClientForAdvancedFields as written: `!clientFields[field]` also fails for
      every name inherited from Object.prototype, so such keys count as known. */
  function CheckClientForAdvancedFieldsAsWritten(obj: JsonObject): (r: Option<JsonObject>)
    ensures r.None? <==> forall i | 0 <= i < |obj| :: obj[i].key in ClientFields + ObjectPrototypeNames
    ensures r.Some? ==> forall f :: f in r.value <==> f in obj && f.key !in ClientFields + ObjectPrototypeNames
  {
    CollectUnknown(obj, ClientFields + ObjectPrototypeNames)
  }

  /** A key named after an Object.prototype member is silently dropped by the code as
      written, while the intended mapping reports it as extension data. */
  lemma PrototypeNameHidesField(obj: JsonObject, f: Field)
    requires f in obj && f.key in ObjectPrototypeNames
    requires forall i | 0 <= i < |obj| :: obj[i] == f || obj[i].key in ClientFields
    ensures CheckClientForAdvancedFieldsAsWritten(obj).None?
    ensures CheckClientForAdvancedFields(obj).Some?
    ensures f in CheckClientForAdvancedFields(obj).value
  {
    assert "constructor" !in ClientFields && "__proto__" !in ClientFields;
    assert ObjectPrototypeNames !! ClientFields;
  }

  /** The concrete witness: `{"type": "client", "message": "hi", "constructor": "x"}`. */
  lemma ConstructorKeyIsLost()
    ensures var obj: JsonObject :=
      [Field("type", JString("client")), Field("message", JString("hi")),
       Field("constructor", JString("x"))];
      && CheckClientForAdvancedFieldsAsWritten(obj) == None
      && CheckClientForAdvancedFields(obj) == Some([Field("constructor", JString("x"))])
  {
    var obj: JsonObject :=
      [Field("type", JString("client")), Field("message", JString("hi")),
       Field("constructor", JString("x"))];
    assert obj[..2][..1] == [Field("type", JString("client"))];
    assert obj[..2] == [Field("type", JString("client")), Field("message", JString("hi"))];
    assert CollectUnknown(obj[..2], ClientFields) == None;
    assert obj[..|obj| - 1] == obj[..2];
    assert "constructor" !in ClientFields;
    assert CollectUnknown(obj, ClientFields) == Some([] + [obj[2]]);
    var lost: JsonObject := [obj[2]];
    assert [] + [obj[2]] == lost;
    assert CheckClientForAdvancedFields(obj) == CollectUnknown(obj, ClientFields);
  }

  /** Names no key uses do not change the fold: adding them to the known set leaves
      the accumulator as it was. */
  lemma {:induction false} CollectUnknownIgnoresAbsent(fs: JsonObject, known: set<string>, extra: set<string>)
    requires forall i | 0 <= i < |fs| :: fs[i].key !in extra
    ensures CollectUnknown(fs, known + extra) == CollectUnknown(fs, known)
    decreases |fs|
  {
    if |fs| > 0 {
      var prefix: JsonObject := fs[..|fs| - 1];
      SplitLast(fs);
      assert forall i | 0 <= i < |prefix| :: prefix[i] == fs[i];
      CollectUnknownIgnoresAbsent(prefix, known, extra);
    }
  }

  /** The corrected mapping and the code as written differ only on objects that carry a
      key named after an Object.prototype member: on every other object, the `_data` of
      a parsed client line is exactly what index.js produces. */
  lemma ParseClientMatchesCodeWithoutPrototypeKeys(obj: JsonObject, toIso: JsonValue -> string, last: string)
    requires forall i | 0 <= i < |obj| :: obj[i].key !in ObjectPrototypeNames
    ensures ParseClient(Some(obj), toIso, last).0.data == CheckClientForAdvancedFieldsAsWritten(obj)
  {
    CollectUnknownIgnoresAbsent(obj, ClientFields, ObjectPrototypeNames);
  }

  /** `obj.key && (field = obj.key)` over a default of '': the property's value when it
      is truthy, '' otherwise. */
  function TruthyOr(obj: JsonObject, key: string): (v: JsonValue)
    ensures TruthyProp(obj, key) ==> Some(v) == Get(obj, key)
    ensures !TruthyProp(obj, key) ==> v == JString("")
  {
    if TruthyProp(obj, key) then Get(obj, key).value else JString("")
  }

  /** parseClient. `parsed` is what JSON.parse made of the line (None if it threw),
      `toIso` stands for `new Date(v).toISOString()`, and `last` is lastTimestamp; the
      second component is lastTimestamp afterwards. `_data` comes from the corrected
      CheckClientForAdvancedFields; ParseClientMatchesCodeWithoutPrototypeKeys states
      where that agrees with the code as written. */
  function ParseClient(parsed: Option<JsonObject>, toIso: JsonValue -> string, last: string): (r: (Event, string))
    ensures parsed.None? ==> r == (NewInstance(), last)
    ensures parsed.Some? ==> r.0.logsource == ClientSource
    ensures parsed.Some? ==> (r.0.eventType == Typed(Info) <==> HasOwn(parsed.value, "message"))
    ensures parsed.Some? ==> (r.0.eventType == Typed(Error) <==> !HasOwn(parsed.value, "message"))
    ensures parsed.Some? ==> r.0.program == TruthyOr(parsed.value, "app")
    ensures parsed.Some? ==> r.0.host == TruthyOr(parsed.value, "ip")
    ensures parsed.Some? ==> r.0.env == TruthyOr(parsed.value, "environment")
    ensures parsed.Some? ==> r.0.data == CheckClientForAdvancedFields(parsed.value)
    ensures parsed.Some? && TruthyProp(parsed.value, "timestamp") ==>
      r.0.timestamp == toIso(Get(parsed.value, "timestamp").value) && r.1 == r.0.timestamp
    ensures !(parsed.Some? && TruthyProp(parsed.value, "timestamp")) ==>
      r.0.timestamp == "" && r.1 == last
    ensures parsed.Some? && TruthyProp(parsed.value, "message") ==>
      Some(r.0.message) == Get(parsed.value, "message")
    ensures parsed.Some? && !TruthyProp(parsed.value, "message") && TruthyProp(parsed.value, "error") ==>
      Some(r.0.message) == (if HasOwn(parsed.value, "message") then Get(parsed.value, "message") else Get(parsed.value, "error"))
    ensures parsed.Some? && !TruthyProp(parsed.value, "message") && !TruthyProp(parsed.value, "error") ==>
      r.0.message == JString("")
  {
    match parsed
    case None => (NewInstance(), last)
    case Some(obj) =>
      var isInfo := HasOwn(obj, "message");
      var message :=
        if TruthyProp(obj, "message") || TruthyProp(obj, "error") then
          (if isInfo then Get(obj, "message").value else Get(obj, "error").value)
        else JString("");
      var stamp := if TruthyProp(obj, "timestamp") then Some(toIso(Get(obj, "timestamp").value)) else None;
      var e := Event(
        ClientSource,
        TruthyOr(obj, "app"),
        TruthyOr(obj, "ip"),
        TruthyOr(obj, "environment"),
        if isInfo then Typed(Info) else Typed(Error),
        stamp.GetOr(""),
        message,
        CheckClientForAdvancedFields(obj));
      (e, stamp.GetOr(last))
  }

  /** No key of a parsed client object is lost or invented: each is either one of the
      client fields or sits in `_data` with its value, and `_data` holds nothing else. */
  lemma ClientKeysAccountedFor(obj: JsonObject, toIso: JsonValue -> string, last: string)
    ensures var e := ParseClient(Some(obj), toIso, last).0;
      && (forall f | f in obj :: f.key in ClientFields || (e.data.Some? && f in e.data.value))
      && (e.data.Some? ==> forall f | f in e.data.value :: f in obj && f.key !in ClientFields)
  {
    var e := ParseClient(Some(obj), toIso, last).0;
    forall f | f in obj && f.key !in ClientFields
      ensures e.data.Some? && f in e.data.value
    {
      var i :| 0 <= i < |obj| && obj[i] == f;
      assert obj[i].key !in ClientFields;
    }
  }

  /** The quirk of the message test: when `message` is present but falsy and `error` is
      truthy, the record takes the falsy `message` and the error text is dropped, while
      the type says INFO. */
  lemma FalsyMessageShadowsError(obj: JsonObject, toIso: JsonValue -> string, last: string)
    requires HasOwn(obj, "message") && !TruthyProp(obj, "message") && TruthyProp(obj, "error")
    ensures var e := ParseClient(Some(obj), toIso, last).0;
      && Some(e.message) == Get(obj, "message")
      && !e.message.Truthy()
      && e.eventType == Typed(Info)
  {
  }

  /** Only a truthy `timestamp` moves lastTimestamp; then it moves to the record's own
      timestamp. */
  lemma ClientTimestampOnlyWhenTruthy(parsed: Option<JsonObject>, toIso: JsonValue -> string, last: string)
    ensures var r := ParseClient(parsed, toIso, last);
      r.1 != last ==> parsed.Some? && TruthyProp(parsed.value, "timestamp") && r.1 == r.0.timestamp
  {
  }

  /** `{"type": "client", "error": "boom", "custom": 1}`: no `message` key, so ERROR with
      the error text, and the one unknown key in `_data`. */
  lemma ErrorWithCustomField(toIso: JsonValue -> string, last: string)
    ensures var r := ParseClient(Some(BoomObject()), toIso, last);
      && r.0.eventType == Typed(Error)
      && r.0.message == JString("boom")
      && r.0.data == Some([Field("custom", JNumber(1.0))])
      && r.0.program == JString("")
      && r.1 == last
  {
    BoomObjectFacts();
    var obj := BoomObject();
    var r := ParseClient(Some(obj), toIso, last);
    assert r.0.eventType == Typed(Error);
    assert Some(r.0.message) == Get(obj, "error");
    assert r.0.data == CheckClientForAdvancedFields(obj);
  }

  function BoomObject(): JsonObject {
    [Field("type", JString("client")), Field("error", JString("boom")), Field("custom", JNumber(1.0))]
  }

  lemma BoomObjectFacts()
    ensures !HasOwn(BoomObject(), "message") && !HasOwn(BoomObject(), "app")
    ensures !TruthyProp(BoomObject(), "timestamp") && !TruthyProp(BoomObject(), "app")
    ensures Get(BoomObject(), "error") == Some(JString("boom"))
    ensures TruthyProp(BoomObject(), "error") && !TruthyProp(BoomObject(), "message")
    ensures CheckClientForAdvancedFields(BoomObject()) == Some([Field("custom", JNumber(1.0))])
  {
    var obj := BoomObject();
    assert !HasOwn(obj, "message");
    assert !HasOwn(obj, "app") && !HasOwn(obj, "timestamp");
    GetFindsField(obj, obj[1]);
    assert obj[..2][..1] == [obj[0]];
    assert CollectUnknown(obj[..2], ClientFields) == None;
    assert obj[..|obj| - 1] == obj[..2];
    assert "custom" !in ClientFields;
    var extra: JsonObject := [obj[2]];
    assert [] + [obj[2]] == extra;
    assert CheckClientForAdvancedFields(obj) == CollectUnknown(obj, ClientFields);
  }
}
