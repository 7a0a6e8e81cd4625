/** Exactly which details an event accepts, and what becomes of them. */
module EventMeaning {
  import opened Options
  import opened Texts
  import opened EventDetails

  // ----- What is accepted -----

  /** Nothing in the value is refused: it nests at most `levels` deep, its keys are texts that are not blank, not long
      and not sensitive, its texts are not long and not sensitive, and its numbers are finite. */
  predicate Clean(p: Patterns, v: Detail, levels: int)
    decreases v
  {
    levels >= 0 &&
    match v
    case Object(entries) => CleanEntries(p, entries, levels)
    case Array(items) => CleanItems(p, items, levels)
    case Fraction(finite, _) => finite
    case Text(text) => |Strip(p.isSpace, text)| <= 500 && !p.sensitiveText(Strip(p.isSpace, text))
    case Foreign => false
    case _ => true
  }

  predicate CleanKey(p: Patterns, key: Option<string>) {
    && key.Some?
    && var s := Strip(p.isSpace, key.value); 1 <= |s| <= 80 && !p.sensitiveKey(s)
  }

  predicate CleanEntries(p: Patterns, entries: seq<Entry>, levels: int)
    decreases entries
  {
    entries != [] ==>
      var init, last := entries[..|entries| - 1], entries[|entries| - 1];
      assert last.value < last;
      CleanEntries(p, init, levels) && CleanKey(p, last.key) && Clean(p, last.value, levels - 1)
  }

  predicate CleanItems(p: Patterns, items: seq<Detail>, levels: int)
    decreases items
  {
    items != [] ==> CleanItems(p, items[..|items| - 1], levels) && Clean(p, items[|items| - 1], levels - 1)
  }

  lemma {:induction false} ItemsFit(items: seq<Detail>)
    ensures |items| <= ItemsSize(items)
    decreases |items|
  {
    if items != [] {
      ItemsFit(items[..|items| - 1]);
    }
  }

  /** A value is accepted exactly when it is clean and its entries, repeated keys included, fit into what is left of
      40; and each of them is counted. */
  lemma {:induction false} AcceptedExactly(p: Patterns, v: Detail, depth: nat, count: nat)
    requires count <= 40
    ensures var r := Minimize(p, v, depth, count);
            && (r.Some? <==> Clean(p, v, 4 - depth) && count + Size(v) <= 40)
            && (r.Some? ==> r.value.count == count + Size(v))
    decreases v
  {
    if depth <= 4 {
      match v
      case Object(entries) => EntriesAcceptedExactly(p, entries, depth, count);
      case Array(items) =>
        ItemsAcceptedExactly(p, items, depth, count);
        ItemsFit(items);
      case Text(_) =>
      case Fraction(_, _) =>
      case Foreign =>
      case Null =>
      case Flag(_) =>
      case Whole(_) =>
    }
  }

  lemma {:induction false} EntriesAcceptedExactly(p: Patterns, entries: seq<Entry>, depth: nat, count: nat)
    requires count <= 40 && depth <= 4
    ensures var r := MinimizeEntries(p, entries, depth, count);
            && (r.Some? <==> CleanEntries(p, entries, 4 - depth) && count + EntriesSize(entries) <= 40)
            && (r.Some? ==> r.value.count == count + EntriesSize(entries))
    decreases entries
  {
    if entries != [] {
      var init, last := entries[..|entries| - 1], entries[|entries| - 1];
      EntriesAcceptedExactly(p, init, depth, count);
      assert last.value < last;
      if MinimizeEntries(p, init, depth, count).Some? && count + EntriesSize(init) + 1 <= 40 {
        AcceptedExactly(p, last.value, depth + 1, count + EntriesSize(init) + 1);
      }
    }
  }

  lemma {:induction false} ItemsAcceptedExactly(p: Patterns, items: seq<Detail>, depth: nat, count: nat)
    requires count <= 40 && depth <= 4
    ensures var r := MinimizeItems(p, items, depth, count);
            && (r.Some? <==> CleanItems(p, items, 4 - depth) && count + ItemsSize(items) <= 40)
            && (r.Some? ==> r.value.count == count + ItemsSize(items))
    decreases items
  {
    if items != [] {
      var init, last := items[..|items| - 1], items[|items| - 1];
      ItemsAcceptedExactly(p, init, depth, count);
      if MinimizeItems(p, init, depth, count).Some? && count + ItemsSize(init) + 1 <= 40 {
        AcceptedExactly(p, last, depth + 1, count + ItemsSize(init) + 1);
      }
    }
  }

  // ----- What it becomes -----

  /** The value under a key. */
  function Get(entries: seq<Entry>, key: string): Option<Detail> {
    if entries == [] then None
    else if entries[|entries| - 1].key == Some(key) then Some(entries[|entries| - 1].value)
    else Get(entries[..|entries| - 1], key)
  }

  function KeysOf(entries: seq<Entry>): seq<Option<string>> {
    seq(|entries|, i requires 0 <= i < |entries| => entries[i].key)
  }

  predicate Distinct(entries: seq<Entry>) {
    forall i, j :: 0 <= i < j < |entries| ==> entries[i].key != entries[j].key
  }

  lemma {:induction false} HasEntryIs(entries: seq<Entry>, key: string)
    ensures HasEntry(entries, key) <==> exists i :: 0 <= i < |entries| && entries[i].key == Some(key)
    ensures Get(entries, key).Some? <==> HasEntry(entries, key)
    decreases |entries|
  {
    if entries != [] {
      var init := entries[..|entries| - 1];
      HasEntryIs(init, key);
      if exists i :: 0 <= i < |entries| && entries[i].key == Some(key) {
        var i :| 0 <= i < |entries| && entries[i].key == Some(key);
        assert i < |init| ==> init[i].key == Some(key);
      }
    }
  }

  /** An assignment gives its key the new value and leaves all others; a key that is there keeps its place, and a new
      one comes last. */
  lemma {:induction false} PutMeans(entries: seq<Entry>, key: string, value: Detail)
    requires Distinct(entries)
    ensures var after := Put(entries, key, value);
            && (forall k :: Get(after, k) == if k == key then Some(value) else Get(entries, k))
            && (if HasEntry(entries, key) then KeysOf(after) == KeysOf(entries)
                else KeysOf(after) == KeysOf(entries) + [Some(key)])
            && Distinct(after)
    decreases |entries|
  {
    var after := Put(entries, key, value);
    if entries == [] {
      assert after[..0] == [];
    } else {
      var init, last := entries[..|entries| - 1], entries[|entries| - 1];
      HasEntryIs(entries, key);
      HasEntryIs(init, key);
      if last.key == Some(key) {
        assert after == init + [Entry(Some(key), value)] && after[..|init|] == init;
        KeyOnlyLast(entries, key);
      } else if HasEntry(entries, key) {
        PutMeans(init, key, value);
        var put := Put(init, key, value);
        assert after == put + [last] && after[..|put|] == put;
        assert KeysOf(after) == KeysOf(put) + [last.key] && KeysOf(entries) == KeysOf(init) + [last.key];
        SameKeysDistinct(entries, after);
      } else {
        assert after == entries + [Entry(Some(key), value)] && after[..|entries|] == entries;
      }
      assert HasEntry(entries, key) ==> KeysOf(after) == KeysOf(entries);
    }
  }

  lemma KeyOnlyLast(entries: seq<Entry>, key: string)
    requires Distinct(entries) && entries != [] && entries[|entries| - 1].key == Some(key)
    ensures Get(entries[..|entries| - 1], key) == None
  {
    HasEntryIs(entries[..|entries| - 1], key);
  }

  lemma SameKeysDistinct(entries: seq<Entry>, after: seq<Entry>)
    requires Distinct(entries) && KeysOf(after) == KeysOf(entries)
    ensures Distinct(after)
  {
    assert |after| == |KeysOf(after)| == |KeysOf(entries)| == |entries|;
    forall i | 0 <= i < |after|
      ensures after[i].key == entries[i].key
    {
      assert KeysOf(after)[i] == KeysOf(entries)[i];
    }
  }

  /** The last of the entries whose trimmed key is `key`. */
  predicate IsLastUnder(p: Patterns, entries: seq<Entry>, key: string, i: int) {
    && 0 <= i < |entries| && entries[i].key.Some? && Strip(p.isSpace, entries[i].key.value) == key
    && forall j :: i < j < |entries| && entries[j].key.Some? ==> Strip(p.isSpace, entries[j].key.value) != key
  }

  /** Each key of the result holds the minimized value of the last entry that was given under it, and nothing else is
      there. */
  lemma {:induction false} EntriesBecome(p: Patterns, entries: seq<Entry>, depth: nat, count: nat, key: string)
    requires MinimizeEntries(p, entries, depth, count).Some?
    ensures var after := MinimizeEntries(p, entries, depth, count).value.value;
            && Distinct(after)
            && (Get(after, key).Some? ==> exists i :: IsLastUnder(p, entries, key, i))
            && forall i :: IsLastUnder(p, entries, key, i) ==>
                 Get(after, key).Some? && IsMinimized(p, entries[i].value, depth + 1, Get(after, key).value)
    decreases |entries|
  {
    if entries != [] {
      var n := |entries| - 1;
      var init, last := entries[..n], entries[n];
      EntriesBecome(p, init, depth, count, key);
      var before := MinimizeEntries(p, init, depth, count).value;
      var r := Minimize(p, last.value, depth + 1, before.count + 1);
      var stripped := Strip(p.isSpace, last.key.value);
      PutMeans(before.value, stripped, r.value.value);
      if stripped == key {
        assert IsLastUnder(p, entries, key, n) && IsMinimized(p, last.value, depth + 1, r.value.value);
        forall i | IsLastUnder(p, entries, key, i)
          ensures i == n
        {
        }
      } else {
        forall i
          ensures IsLastUnder(p, entries, key, i) <==> IsLastUnder(p, init, key, i)
        {
          EarlierLast(p, entries, key, i);
        }
      }
    }
  }

  lemma EarlierLast(p: Patterns, entries: seq<Entry>, key: string, i: int)
    requires entries != []
    requires var last := entries[|entries| - 1]; last.key.Some? && Strip(p.isSpace, last.key.value) != key
    ensures IsLastUnder(p, entries, key, i) <==> IsLastUnder(p, entries[..|entries| - 1], key, i)
  {
    var init := entries[..|entries| - 1];
    if IsLastUnder(p, init, key, i) {
      forall j | i < j < |entries| && entries[j].key.Some?
        ensures Strip(p.isSpace, entries[j].key.value) != key
      {
        if j < |init| {
          assert init[j] == entries[j];
        }
      }
    }
  }

  /** Texts are trimmed, lists keep their elements in order, and other values stay as they are. */
  lemma ValueBecomes(p: Patterns, v: Detail, depth: nat, count: nat)
    requires Minimize(p, v, depth, count).Some?
    ensures var after := Minimize(p, v, depth, count).value.value;
            match v
            case Text(text) => after.Text? && Trimmed(p.isSpace, text, after.text)
            case Array(items) => after.Array? && |after.items| == |items|
            case Object(_) => after.Object?
            case _ => after == v
  {
    if v.Text? {
      StripTrims(p.isSpace, v.text);
    } else if v.Array? {
      ItemsBecome(p, v.items, depth, count);
    }
  }

  lemma {:induction false} ItemsBecome(p: Patterns, items: seq<Detail>, depth: nat, count: nat)
    requires MinimizeItems(p, items, depth, count).Some?
    ensures var after := MinimizeItems(p, items, depth, count).value.value;
            && |after| == |items|
            && forall i :: 0 <= i < |items| ==> IsMinimized(p, items[i], depth + 1, after[i])
    decreases |items|
  {
    if items != [] {
      var n := |items| - 1;
      ItemsBecome(p, items[..n], depth, count);
      var before := MinimizeItems(p, items[..n], depth, count).value;
      assert Minimize(p, items[n], depth + 1, before.count + 1).value.value ==
          MinimizeItems(p, items, depth, count).value.value[n];
      assert IsMinimized(p, items[n], depth + 1, MinimizeItems(p, items, depth, count).value.value[n]);
    }
  }

  ghost predicate IsMinimized(p: Patterns, v: Detail, depth: nat, after: Detail) {
    exists c :: var r := Minimize(p, v, depth, c); r.Some? && r.value.value == after
  }

  /** The whole: no details are an empty object; details are an object that is clean and has at most 40 entries in
      all, and whose minimized form is encoded in at most 4096 bytes. */
  lemma DetailsAcceptedExactly(p: Patterns, details: Option<Detail>)
    ensures MinimizeDetails(p, None) == Some(Object([]))
    ensures details.Some? ==>
              (MinimizeDetails(p, details).Some? <==>
                && details.value.Object? && Clean(p, details.value, 4) && Size(details.value) <= 40
                && Minimize(p, details.value, 0, 0).Some?
                && p.encodedBytes(Minimize(p, details.value, 0, 0).value.value) <= 4096)
    ensures details.Some? && MinimizeDetails(p, details).Some? ==>
              MinimizeDetails(p, details) == Some(Minimize(p, details.value, 0, 0).value.value)
  {
    if details.Some? {
      AcceptedExactly(p, details.value, 0, 0);
    }
  }
}
