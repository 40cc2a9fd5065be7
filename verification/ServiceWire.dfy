/**
 The string-to-string metadata that carries service filters and service
 descriptions over the wire, and the round trips through it.
 */
module ServiceWire {
  import Decimal

  datatype Option<+T> = None | Some(value: T)

  type Meta = map<string, string>

  // `Message::getMeta(key)`: a missing key reads as the empty string, and is inserted as such.
  function Get(m: Meta, key: string): string {
    if key in m then m[key] else ""
  }

  function AfterGet(m: Meta, key: string): Meta {
    if key in m then m else m[key := ""]
  }

  // ---------- filters ----------

  datatype Filter = Filter(
    name: string,
    uuid: string,
    value: map<string, string>,
    pattern: map<string, string>,
    pred: map<string, int>)
  {
    // Kept by `addRule` and `clearRules`: every rule has all three parts.
    ghost predicate WellFormed() {
      value.Keys == pattern.Keys == pred.Keys
    }

    // The predicates that the `Predicate` enumeration can hold.
    ghost predicate Sendable() {
      WellFormed() && forall k :: k in pred ==> 0 <= pred[k] <= 0xffff
    }
  }

  const VALUE := "value:"
  const PATTERN := "pattern:"
  const PRED := "pred:"
  const DESC := "desc:"

  // Every name of `ks` behind the prefix `p`.
  function Prefixed(p: string, ks: set<string>): set<string> {
    set k | k in ks :: p + k
  }

  // The names that occur in `m` behind the prefix `p`.
  function Stripped(p: string, m: Meta): set<string> {
    set key | key in m && p <= key :: key[|p|..]
  }

  function FilterKeys(f: Filter): set<string> {
    {"serviceName", "uuid"} + Prefixed(VALUE, f.value.Keys)
    + Prefixed(PATTERN, f.pattern.Keys) + Prefixed(PRED, f.pred.Keys)
  }

  function FilterEntry(f: Filter, key: string): string
    requires key in FilterKeys(f)
  {
    PrefixesApart(key);
    if key == "serviceName" then f.name
    else if key == "uuid" then f.uuid
    else if VALUE <= key then f.value[key[|VALUE|..]]
    else if PATTERN <= key then f.pattern[key[|PATTERN|..]]
    else Decimal.Print(f.pred[key[|PRED|..]])
  }

  /** What `ServiceFilter::toMessage` puts into the message. */
  function EncodeFilter(f: Filter): Meta {
    map key | key in FilterKeys(f) :: FilterEntry(f, key)
  }

  // The two asserts in `ServiceFilter(Message*)`.
  predicate FilterAssertsHold(m: Meta) {
    forall k :: k in Stripped(VALUE, m) ==> PATTERN + k in m && PRED + k in m
  }

  /** What `ServiceFilter(Message*)` reads; none when one of its asserts fires. */
  function DecodeFilter(m: Meta): Option<Filter> {
    if !FilterAssertsHold(m) then None
    else
      var ks := Stripped(VALUE, m);
      Some(Filter(Get(m, "serviceName"), Get(m, "uuid"),
                  map k | k in ks :: Get(m, VALUE + k),
                  map k | k in ks :: m[PATTERN + k],
                  map k | k in ks :: Decimal.Atoi(m[PRED + k])))
  }

  // Metadata that another layer may add to a filter message.
  ghost predicate ForeignToFilter(key: string) {
    key != "serviceName" && key != "uuid" && !(VALUE <= key) && !(PATTERN <= key) && !(PRED <= key)
  }

  // No key starts with two of the prefixes, and the plain keys with none.
  lemma PrefixesApart(key: string)
    ensures VALUE <= key ==> key[0] == 'v' && !(PATTERN <= key) && !(PRED <= key) && key != "serviceName" && key != "uuid"
    ensures PATTERN <= key ==> key[0] == 'p' && key[1] == 'a' && !(PRED <= key) && key != "serviceName" && key != "uuid"
    ensures PRED <= key ==> key[0] == 'p' && key[1] == 'r' && key != "serviceName" && key != "uuid"
  {
    assert "serviceName"[0] == 's' && "uuid"[0] == 'u';
    assert VALUE[0] == 'v' && PATTERN[0] == 'p' && PATTERN[1] == 'a' && PRED[0] == 'p' && PRED[1] == 'r';
  }

  lemma MetaKeysAreForeign(key: string)
    requires key in {"type", "reqId", "respId", "subscriber", "publisher", "proc", "filterId"}
    ensures ForeignToFilter(key) && !(DESC <= key)
  {
    PrefixesApart(key);
    assert DESC[0] == 'd' && VALUE[0] == 'v' && PATTERN[1] == 'a' && PRED[1] == 'r';
    assert "type"[0] == 't' && "reqId"[0] == 'r' && "respId"[0] == 'r' && "subscriber"[0] == 's';
    assert "publisher"[0] == 'p' && "publisher"[1] == 'u' && "proc"[2] == 'o' && "filterId"[0] == 'f';
    assert PRED[2] == 'e';
  }

  lemma EncodedFilterAt(f: Filter, extra: Meta, k: string)
    requires forall key :: key in extra ==> ForeignToFilter(key)
    ensures var m := EncodeFilter(f) + extra;
            && (VALUE + k in m <==> k in f.value) && (PATTERN + k in m <==> k in f.pattern)
            && (PRED + k in m <==> k in f.pred)
            && (k in f.value ==> m[VALUE + k] == f.value[k])
            && (k in f.pattern ==> m[PATTERN + k] == f.pattern[k])
            && (k in f.pred ==> m[PRED + k] == Decimal.Print(f.pred[k]))
  {
    EncodedValueAt(f, extra, k);
    EncodedPatternAt(f, extra, k);
    EncodedPredicateAt(f, extra, k);
  }

  lemma EncodedValueAt(f: Filter, extra: Meta, k: string)
    requires forall key :: key in extra ==> ForeignToFilter(key)
    ensures var m := EncodeFilter(f) + extra;
            (VALUE + k in m <==> k in f.value) && (k in f.value ==> m[VALUE + k] == f.value[k])
  {
    PrefixesApart(VALUE + k);
    assert VALUE <= VALUE + k && (VALUE + k)[|VALUE|..] == k;
  }

  lemma EncodedPatternAt(f: Filter, extra: Meta, k: string)
    requires forall key :: key in extra ==> ForeignToFilter(key)
    ensures var m := EncodeFilter(f) + extra;
            (PATTERN + k in m <==> k in f.pattern) && (k in f.pattern ==> m[PATTERN + k] == f.pattern[k])
  {
    PrefixesApart(PATTERN + k);
    assert PATTERN <= PATTERN + k && (PATTERN + k)[|PATTERN|..] == k;
  }

  lemma EncodedPredicateAt(f: Filter, extra: Meta, k: string)
    requires forall key :: key in extra ==> ForeignToFilter(key)
    ensures var m := EncodeFilter(f) + extra;
            (PRED + k in m <==> k in f.pred) && (k in f.pred ==> m[PRED + k] == Decimal.Print(f.pred[k]))
  {
    PrefixesApart(PRED + k);
    assert PRED <= PRED + k && (PRED + k)[|PRED|..] == k;
  }

  lemma EncodedFilterNames(f: Filter, extra: Meta)
    requires forall key :: key in extra ==> ForeignToFilter(key)
    ensures Stripped(VALUE, EncodeFilter(f) + extra) == f.value.Keys
  {
    var m := EncodeFilter(f) + extra;
    forall k
      ensures k in Stripped(VALUE, m) <==> k in f.value
    {
      EncodedFilterAt(f, extra, k);
      if k in Stripped(VALUE, m) {
        var key :| key in m && VALUE <= key && key[|VALUE|..] == k;
        assert key == VALUE + k;
      } else {
        assert VALUE <= VALUE + k && (VALUE + k)[|VALUE|..] == k;
      }
    }
  }

  lemma EncodedRuleDecodes(f: Filter, extra: Meta, k: string)
    requires f.Sendable() && k in f.value
    requires forall key :: key in extra ==> ForeignToFilter(key)
    ensures var m := EncodeFilter(f) + extra;
            && VALUE + k in m && PATTERN + k in m && PRED + k in m
            && m[VALUE + k] == f.value[k] && m[PATTERN + k] == f.pattern[k]
            && Decimal.Atoi(m[PRED + k]) == f.pred[k]
  {
    EncodedFilterAt(f, extra, k);
    Decimal.AtoiPrint(f.pred[k]);
  }

  lemma EncodedFilterHeader(f: Filter, extra: Meta)
    requires forall key :: key in extra ==> ForeignToFilter(key)
    ensures Get(EncodeFilter(f) + extra, "serviceName") == f.name
    ensures Get(EncodeFilter(f) + extra, "uuid") == f.uuid
  {
    var e := EncodeFilter(f);
    assert "uuid"[0] == 'u' && "serviceName"[0] == 's';
    assert "serviceName" in e && "uuid" in e;
    assert "serviceName" !in extra && "uuid" !in extra;
  }

  lemma FilterAssertsNeverFire(f: Filter, extra: Meta)
    requires f.Sendable()
    requires forall key :: key in extra ==> ForeignToFilter(key)
    ensures FilterAssertsHold(EncodeFilter(f) + extra)
  {
    EncodedFilterNames(f, extra);
    forall k | k in f.value
      ensures PATTERN + k in EncodeFilter(f) + extra && PRED + k in EncodeFilter(f) + extra
    {
      EncodedRuleDecodes(f, extra, k);
    }
  }

  // The rules read off a message whose entries are those of `f`.
  lemma DecodedRules(m: Meta, f: Filter)
    requires f.WellFormed() && FilterAssertsHold(m)
    requires Stripped(VALUE, m) == f.value.Keys
    requires forall k :: k in f.value ==> VALUE + k in m && m[VALUE + k] == f.value[k]
    requires forall k :: k in f.value ==> PATTERN + k in m && m[PATTERN + k] == f.pattern[k]
    requires forall k :: k in f.value ==> PRED + k in m && Decimal.Atoi(m[PRED + k]) == f.pred[k]
    requires Get(m, "serviceName") == f.name && Get(m, "uuid") == f.uuid
    ensures DecodeFilter(m) == Some(f)
  {
    var g := DecodeFilter(m).value;
    assert g.value == f.value && g.pattern == f.pattern && g.pred == f.pred;
  }

  /** A filter survives the wire, whatever foreign metadata travels with it. */
  lemma FilterRoundTrip(f: Filter, extra: Meta)
    requires f.Sendable()
    requires forall key :: key in extra ==> ForeignToFilter(key)
    ensures DecodeFilter(EncodeFilter(f) + extra) == Some(f)
  {
    var m := EncodeFilter(f) + extra;
    EncodedFilterNames(f, extra);
    EncodedFilterHeader(f, extra);
    FilterAssertsNeverFire(f, extra);
    forall k | k in f.value
      ensures VALUE + k in m && PATTERN + k in m && PRED + k in m
      ensures m[VALUE + k] == f.value[k] && m[PATTERN + k] == f.pattern[k]
      ensures Decimal.Atoi(m[PRED + k]) == f.pred[k]
    {
      EncodedRuleDecodes(f, extra, k);
    }
    DecodedRules(m, f);
  }

  // ---------- descriptions ----------

  datatype Description = Description(name: string, channel: string, props: map<string, string>)
  {
    // `getProperty`: a missing property reads as the empty string.
    function Lookup(key: string): string {
      if key in props then props[key] else ""
    }
  }

  // What a receiver makes of a description: the empty key is lost, and the
  // name and the channel show up as properties.
  function OnArrival(d: Description): Description {
    d.(props := (d.props - {""})["name" := d.name]["channel" := d.channel])
  }

  /** What `ServiceDescription::toMessage` puts into the message. */
  function EncodeDescription(d: Description): Meta {
    (map key | key in Prefixed(DESC, d.props.Keys) :: DescriptionEntry(d, key))
    [DESC + "name" := d.name][DESC + "channel" := d.channel]
  }

  function DescriptionEntry(d: Description, key: string): string
    requires key in Prefixed(DESC, d.props.Keys)
  {
    d.props[key[|DESC|..]]
  }

  /** What `ServiceDescription(Message*)` reads: the two keys it asks for are there when it looks for properties. */
  function DecodeDescription(m: Meta): Description {
    Description(Get(m, DESC + "name"), Get(m, DESC + "channel"),
                map k | k in Stripped(DESC, m) + {"name", "channel"} && k != "" :: Get(m, DESC + k))
  }

  lemma EncodedDescriptionAt(d: Description, k: string)
    ensures var m := EncodeDescription(d);
            && (DESC + k in m <==> k in d.props || k == "name" || k == "channel")
            && (k in d.props && k != "name" && k != "channel" ==> m[DESC + k] == d.props[k])
            && m[DESC + "name"] == d.name && m[DESC + "channel"] == d.channel
  {
    assert (DESC + k)[|DESC|..] == k;
    assert (DESC + "name")[|DESC|..] == "name" && (DESC + "channel")[|DESC|..] == "channel";
    assert "name"[0] != "channel"[0];
  }

  /** A description keeps its name and channel on the wire; its properties arrive as `OnArrival` says. */
  lemma DescriptionRoundTrip(d: Description, extra: Meta)
    requires forall key :: key in extra ==> !(DESC <= key)
    ensures DecodeDescription(EncodeDescription(d) + extra) == OnArrival(d)
  {
    var m := EncodeDescription(d) + extra;
    var g := DecodeDescription(m);
    forall k
      ensures k in g.props <==> k in OnArrival(d).props
      ensures k in g.props ==> g.props[k] == OnArrival(d).props[k]
    {
      SentDescriptionAt(d, extra, k);
    }
    assert g.props == OnArrival(d).props;
    SentDescriptionAt(d, extra, "name");
    SentDescriptionAt(d, extra, "channel");
  }

  lemma SentDescriptionAt(d: Description, extra: Meta, k: string)
    requires forall key :: key in extra ==> !(DESC <= key)
    ensures var m, a := EncodeDescription(d) + extra, OnArrival(d);
            && (k in Stripped(DESC, m) <==> DESC + k in m)
            && (DESC + k in m <==> k in d.props || k == "name" || k == "channel")
            && (DESC + k in m && k != "" ==> k in a.props && m[DESC + k] == a.props[k])
  {
    var m := EncodeDescription(d) + extra;
    EncodedDescriptionAt(d, k);
    assert DESC <= DESC + k && (DESC + k)[|DESC|..] == k;
    if k in Stripped(DESC, m) {
      var key :| key in m && DESC <= key && key[|DESC|..] == k;
      assert key == DESC + k;
    }
  }
}
