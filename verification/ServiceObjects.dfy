/**
 The filter and description objects themselves: their rules and properties are
 changed in place, and each operation is tied to its meaning on values.
 */
module ServiceObjects {
  import opened ServiceWire
  import opened ServiceMatch
  import Decimal

  class ServiceDescription {
    var svcName: string
    var channelName: string
    var properties: map<string, string>

    ghost function View(): Description
      reads this
    {
      Description(svcName, channelName, properties)
    }

    constructor (name: string, props: map<string, string>)
      ensures View() == Description(name, "", props)
    {
      svcName, channelName, properties := name, "", props;
    }

    constructor FromMessage(msg: Meta)
      ensures View() == DecodeDescription(msg)
    {
      svcName, channelName := Get(msg, DESC + "name"), Get(msg, DESC + "channel");
      var props := ReadProperties(WithHeader(msg));
      properties := props;
      PropertiesAreDecoded(msg, props);
    }

    // The loop over the metadata.
    static method ReadProperties(meta: Meta) returns (props: map<string, string>)
      ensures forall k :: k in props <==> k != "" && DESC + k in meta
      ensures forall k :: k in props ==> props[k] == meta[DESC + k]
    {
      props := map[];
      var todo := meta.Keys;
      while todo != {}
        invariant todo <= meta.Keys
        invariant forall k :: k in props <==> k != "" && DESC + k in meta && DESC + k !in todo
        invariant forall k :: k in props ==> props[k] == meta[DESC + k]
        decreases todo
      {
        var key :| key in todo;
        if |key| > |DESC| && DESC <= key {
          assert DESC + key[|DESC|..] == key;
          props := props[key[|DESC|..] := meta[key]];
        }
        forall k
          ensures k in props <==> k != "" && DESC + k in meta && DESC + k !in todo - {key}
        {
          assert (DESC + k)[|DESC|..] == k;
        }
        todo := todo - {key};
      }
    }

    method ToMessage() returns (msg: Meta)
      ensures msg == EncodeDescription(View())
    {
      msg := map[];
      var todo := properties.Keys;
      while todo != {}
        invariant todo <= properties.Keys
        invariant msg.Keys == Prefixed(DESC, properties.Keys - todo)
        invariant msg.Keys <= Prefixed(DESC, properties.Keys)
        invariant forall key :: key in msg ==> msg[key] == DescriptionEntry(View(), key)
        decreases todo
      {
        var k :| k in todo;
        assert DESC + k in Prefixed(DESC, properties.Keys) && (DESC + k)[|DESC|..] == k;
        msg := msg[DESC + k := properties[k]];
        assert properties.Keys - (todo - {k}) == (properties.Keys - todo) + {k};
        PrefixedGrows(DESC, properties.Keys - todo, k);
        todo := todo - {k};
      }
      assert properties.Keys - todo == properties.Keys;
      msg := msg[DESC + "name" := svcName][DESC + "channel" := channelName];
    }

    // Reading a property inserts it.
    method GetProperty(key: string) returns (value: string)
      modifies this`properties
      ensures value == old(View()).Lookup(key)
      ensures properties == if key in old(properties) then old(properties) else old(properties)[key := ""]
    {
      if key !in properties {
        properties := properties[key := ""];
      }
      value := properties[key];
    }

    method SetProperty(key: string, value: string)
      modifies this`properties
      ensures View() == old(View()).(props := old(properties)[key := value])
    {
      properties := properties[key := value];
    }
  }

  class ServiceFilter {
    var uuid: string
    var svcName: string
    var pattern: map<string, string>
    var value: map<string, string>
    var preds: map<string, int>

    ghost function View(): Filter
      reads this
    {
      Filter(svcName, uuid, value, pattern, preds)
    }

    ghost predicate Valid()
      reads this
    {
      View().WellFormed()
    }

    constructor (name: string, id: string)
      ensures Valid() && View() == Filter(name, id, map[], map[], map[])
    {
      svcName, uuid := name, id;
      pattern, value, preds := map[], map[], map[];
    }

    constructor FromMessage(msg: Meta)
      requires FilterAssertsHold(msg)
      ensures Valid() && Some(View()) == DecodeFilter(msg)
    {
      svcName, uuid := Get(msg, "serviceName"), Get(msg, "uuid");
      var v: map<string, string>, p: map<string, string>, r: map<string, int> := map[], map[], map[];
      var todo := msg.Keys;
      while todo != {}
        invariant todo <= msg.Keys
        invariant v.Keys == p.Keys == r.Keys
        invariant forall k :: k in v <==> VALUE + k in msg && VALUE + k !in todo
        invariant forall k :: k in v ==> PATTERN + k in msg && PRED + k in msg
        invariant forall k :: k in v ==> v[k] == msg[VALUE + k]
        invariant forall k :: k in v ==> p[k] == msg[PATTERN + k] && r[k] == Decimal.Atoi(msg[PRED + k])
        decreases todo
      {
        var key :| key in todo;
        if VALUE <= key {
          var k := key[|VALUE|..];
          assert VALUE + k == key;
          assert k in Stripped(VALUE, msg);
          v, p, r := v[k := msg[key]], p[k := msg[PATTERN + k]], r[k := Decimal.Atoi(msg[PRED + k])];
        }
        forall k
          ensures k in v <==> VALUE + k in msg && VALUE + k !in todo - {key}
        {
          assert (VALUE + k)[|VALUE|..] == k && VALUE <= VALUE + k;
        }
        todo := todo - {key};
      }
      value, pattern, preds := v, p, r;
      new;
      forall k
        ensures k in Stripped(VALUE, msg) <==> VALUE + k in msg
      {
        assert VALUE <= VALUE + k && (VALUE + k)[|VALUE|..] == k;
        if k in Stripped(VALUE, msg) {
          var key :| key in msg && VALUE <= key && key[|VALUE|..] == k;
          assert key == VALUE + k;
        }
      }
      assert Stripped(VALUE, msg) == value.Keys;
      DecodedRules(msg, View());
    }

    method ToMessage() returns (msg: Meta)
      ensures msg == EncodeFilter(View())
    {
      msg := map["serviceName" := svcName]["uuid" := uuid];
      assert "uuid"[0] == 'u' && "serviceName"[0] == 's';
      msg := PutTexts(msg, VALUE, value, {"serviceName", "uuid"});
      msg := PutTexts(msg, PATTERN, pattern, {"serviceName", "uuid"} + Prefixed(VALUE, value.Keys));
      msg := PutPredicates(msg, {"serviceName", "uuid"} + Prefixed(VALUE, value.Keys) + Prefixed(PATTERN, pattern.Keys));
      assert msg.Keys == FilterKeys(View());
    }

    method PutPredicates(msg: Meta, ghost before: set<string>) returns (out: Meta)
      requires msg.Keys == before && FilterSoFar(msg)
      ensures out.Keys == before + Prefixed(PRED, preds.Keys) && FilterSoFar(out)
    {
      out := msg;
      var todo := preds.Keys;
      while todo != {}
        invariant todo <= preds.Keys
        invariant out.Keys == before + Prefixed(PRED, preds.Keys - todo)
        invariant FilterSoFar(out)
        decreases todo
      {
        var k :| k in todo;
        PrefixesApart(PRED + k);
        assert PRED <= PRED + k && (PRED + k)[|PRED|..] == k;
        assert PRED + k in Prefixed(PRED, preds.Keys);
        out := out[PRED + k := Decimal.Print(preds[k])];
        assert preds.Keys - (todo - {k}) == (preds.Keys - todo) + {k};
        PrefixedGrows(PRED, preds.Keys - todo, k);
        todo := todo - {k};
      }
      assert preds.Keys - todo == preds.Keys;
    }

    ghost predicate FilterSoFar(msg: Meta)
      reads this
    {
      msg.Keys <= FilterKeys(View()) && forall key :: key in msg ==> msg[key] == FilterEntry(View(), key)
    }

    // One of the two loops that write the texts of all rules.
    method PutTexts(msg: Meta, prefix: string, texts: map<string, string>, ghost before: set<string>) returns (out: Meta)
      requires (prefix == VALUE && texts == value) || (prefix == PATTERN && texts == pattern)
      requires msg.Keys == before && FilterSoFar(msg)
      ensures out.Keys == before + Prefixed(prefix, texts.Keys) && FilterSoFar(out)
    {
      out := msg;
      var todo := texts.Keys;
      while todo != {}
        invariant todo <= texts.Keys
        invariant out.Keys == before + Prefixed(prefix, texts.Keys - todo)
        invariant FilterSoFar(out)
        decreases todo
      {
        var k :| k in todo;
        PrefixesApart(prefix + k);
        assert prefix <= prefix + k && (prefix + k)[|prefix|..] == k;
        assert prefix + k in Prefixed(prefix, texts.Keys);
        out := out[prefix + k := texts[k]];
        assert texts.Keys - (todo - {k}) == (texts.Keys - todo) + {k};
        PrefixedGrows(prefix, texts.Keys - todo, k);
        todo := todo - {k};
      }
      assert texts.Keys - todo == texts.Keys;
    }

    method AddRule(key: string, pat: string, val: string, pred: int)
      requires Valid()
      modifies this
      ensures Valid()
      ensures View() == old(View()).(value := old(value)[key := val],
                                     pattern := old(pattern)[key := pat],
                                     pred := old(preds)[key := pred])
    {
      pattern := pattern[key := pat];
      value := value[key := val];
      preds := preds[key := pred];
    }

    method ClearRules()
      modifies this
      ensures Valid() && View() == Filter(old(svcName), old(uuid), map[], map[], map[])
    {
      pattern, value, preds := map[], map[], map[];
    }

    // Reads properties through `GetProperty`, so it inserts into the description it tests.
    method Matches(e: Engine, desc: ServiceDescription) returns (yes: bool)
      requires Valid()
      modifies desc`properties
      ensures yes == ServiceMatch.Matches(e, View(), old(desc.View()))
      ensures MayLeave(View(), old(desc.View()), desc.View())
      ensures yes ==> value.Keys <= desc.properties.Keys
    {
      if svcName != desc.svcName {
        return false;
      }
      ghost var before := desc.View();
      var todo := value.Keys;
      while todo != {}
        invariant todo <= value.Keys
        invariant MayLeave(View(), before, desc.View())
        invariant value.Keys - todo <= desc.properties.Keys
        invariant forall k :: k in value && k !in todo ==> KeyPasses(e, View(), before, k)
        decreases todo
      {
        var key :| key in todo;
        var actual := desc.GetProperty(key);
        assert actual == before.Lookup(key);
        var passes := TestRule(e, key, actual);
        if !passes {
          assert !KeyPasses(e, View(), before, key);
          return false;
        }
        todo := todo - {key};
      }
      return true;
    }

    // The body of the loop in `matches`, from the regular expression on.
    method TestRule(e: Engine, key: string, actual: string) returns (passes: bool)
      requires Valid() && key in value
      ensures passes == RulePasses(e, pattern[key], value[key], preds[key], actual)
    {
      var target := value[key];
      var pred := preds[key];
      match e.regex(pattern[key], actual) {
        case BadPattern => return false;
        case NoMatch => return false;
        case Match(substring) =>
          var numericMode := false;
          var targetIsNumeric := IsNumericText(target);
          if targetIsNumeric {
            numericMode := IsNumericText(substring);
          }
          var op, related := Operator(pred), true;
          if op == OP_EQUALS {
            related := if numericMode then e.number(substring) == e.number(target) else substring == target;
          } else if op == OP_LESS {
            related := if numericMode then e.number(substring) < e.number(target) else Before(substring, target);
          } else if op == OP_GREATER {
            related := if numericMode then e.number(substring) > e.number(target) else Before(target, substring);
          } else if op == OP_STARTS_WITH {
            related := Find(substring, target) == 0;
          } else if op == OP_ENDS_WITH {
            related := Find(substring, target) == LengthDifference(substring, target);
          } else if op == OP_CONTAINS {
            related := Find(substring, target) != NPOS;
          } else {
            return true;
          }
          return (!related) == Negated(pred);
      }
    }

    method IsNumericText(test: string) returns (yes: bool)
      ensures yes == IsNumeric(test)
    {
      for i := 0 to |test|
        invariant forall j :: 0 <= j < i ==> '0' <= test[j] <= '9' || test[j] == '.' || test[j] == 'e'
      {
        if !('0' <= test[i] <= '9' || test[i] == '.' || test[i] == 'e') {
          assert test[i] in test;
          return false;
        }
      }
      return true;
    }
  }

  lemma StrippedAt(msg: Meta, k: string)
    ensures k in Stripped(DESC, msg) <==> DESC + k in msg
    ensures DESC + k == DESC + "name" <==> k == "name"
    ensures DESC + k == DESC + "channel" <==> k == "channel"
  {
    assert DESC <= DESC + k && (DESC + k)[|DESC|..] == k;
    assert (DESC + "name")[|DESC|..] == "name" && (DESC + "channel")[|DESC|..] == "channel";
    if k in Stripped(DESC, msg) {
      var key :| key in msg && DESC <= key && key[|DESC|..] == k;
      assert key == DESC + k;
    }
  }

  // The metadata after the constructor has asked for the name and the channel.
  function WithHeader(msg: Meta): Meta {
    AfterGet(AfterGet(msg, DESC + "name"), DESC + "channel")
  }

  lemma WithHeaderAt(msg: Meta, k: string)
    ensures var meta := WithHeader(msg);
            && (DESC + k in meta <==> k in Stripped(DESC, msg) + {"name", "channel"})
            && (DESC + k in meta ==> meta[DESC + k] == Get(msg, DESC + k))
  {
    StrippedAt(msg, k);
  }

  lemma PropertiesAreDecoded(msg: Meta, props: map<string, string>)
    requires forall k :: k in props <==> k != "" && DESC + k in WithHeader(msg)
    requires forall k :: k in props ==> props[k] == WithHeader(msg)[DESC + k]
    ensures props == DecodeDescription(msg).props
  {
    forall k
      ensures k in props <==> k in DecodeDescription(msg).props
      ensures k in props ==> props[k] == DecodeDescription(msg).props[k]
    {
      WithHeaderAt(msg, k);
    }
  }

  lemma PrefixedGrows(p: string, ks: set<string>, k: string)
    ensures Prefixed(p, ks + {k}) == Prefixed(p, ks) + {p + k}
  {
  }
}
