/** Minimizing the details of a log event: trimmed, bounded in depth and in number of entries, free of what the
    host's patterns call sensitive. */
module EventDetails {
  import opened Options
  import opened Texts

  /** A value as the caller passes it; `Foreign` is a type that details may not hold. */
  datatype Detail =
    | Null
    | Flag(flag: bool)
    | Whole(n: int)
    | Fraction(finite: bool, digits: string)
    | Text(text: string)
    | Array(items: seq<Detail>)
    | Object(entries: seq<Entry>)
    | Foreign

  /** A mapping's entries in insertion order; a key may be something else than text. */
  datatype Entry = Entry(key: Option<string>, value: Detail)

  datatype Patterns = Patterns(
    isSpace: char -> bool,
    sensitiveKey: string -> bool,
    sensitiveText: string -> bool,
    encodedBytes: Detail -> nat)

  const MAX_BYTES: nat := 4096
  const MAX_ITEMS: nat := 40
  const MAX_DEPTH: nat := 4
  const MAX_KEY_LENGTH: nat := 80
  const MAX_TEXT_LENGTH: nat := 500

  /** A dictionary assignment: a known key keeps its place and takes the new value. */
  function Put(entries: seq<Entry>, key: string, value: Detail): seq<Entry> {
    if entries == [] then [Entry(Some(key), value)]
    else if entries[|entries| - 1].key == Some(key) then entries[..|entries| - 1] + [Entry(Some(key), value)]
    else if HasEntry(entries, key) then Put(entries[..|entries| - 1], key, value) + [entries[|entries| - 1]]
    else entries + [Entry(Some(key), value)]
  }

  predicate HasEntry(entries: seq<Entry>, key: string) {
    entries != [] && (entries[|entries| - 1].key == Some(key) || HasEntry(entries[..|entries| - 1], key))
  }

  predicate KeyAllowed(p: Patterns, key: string) {
    key != "" && |key| <= MAX_KEY_LENGTH && !p.sensitiveKey(key)
  }

  predicate TextAllowed(p: Patterns, text: string) {
    |text| <= MAX_TEXT_LENGTH && !p.sensitiveText(text)
  }

  /** A minimized value and the number of entries seen so far; None is the error. */
  datatype Counted<T> = Counted(value: T, count: nat)

  function Minimize(p: Patterns, v: Detail, depth: nat, count: nat): Option<Counted<Detail>>
    decreases v
  {
    if depth > MAX_DEPTH then None
    else
      match v
      case Object(entries) =>
        var r := MinimizeEntries(p, entries, depth, count);
        if r.Some? then Some(Counted(Object(r.value.value), r.value.count)) else None
      case Array(items) =>
        if |items| > MAX_ITEMS then None
        else
          var r := MinimizeItems(p, items, depth, count);
          if r.Some? then Some(Counted(Array(r.value.value), r.value.count)) else None
      case Fraction(finite, _) => if finite then Some(Counted(v, count)) else None
      case Text(text) =>
        var normalized := Strip(p.isSpace, text);
        if TextAllowed(p, normalized) then Some(Counted(Text(normalized), count)) else None
      case Foreign => None
      case _ => Some(Counted(v, count))
  }

  function MinimizeEntries(p: Patterns, entries: seq<Entry>, depth: nat, count: nat): Option<Counted<seq<Entry>>>
    decreases entries
  {
    if entries == [] then Some(Counted([], count))
    else
      var before := MinimizeEntries(p, entries[..|entries| - 1], depth, count);
      var entry := entries[|entries| - 1];
      assert entry.value < entry;
      if before.None? || !Countable(p, entry, before.value.count) then None
      else WithEntry(p, before.value.value, entry, Minimize(p, entry.value, depth + 1, before.value.count + 1))
  }

  function WithEntry(p: Patterns, before: seq<Entry>, entry: Entry,
                     r: Option<Counted<Detail>>): Option<Counted<seq<Entry>>>
    requires entry.key.Some?
  {
    if r.None? then None
    else Some(Counted(Put(before, Strip(p.isSpace, entry.key.value), r.value.value), r.value.count))
  }

  /** The entry's key is accepted, and there is room for one more. */
  predicate Countable(p: Patterns, entry: Entry, count: nat) {
    entry.key.Some? && KeyAllowed(p, Strip(p.isSpace, entry.key.value)) && count + 1 <= MAX_ITEMS
  }

  function MinimizeItems(p: Patterns, items: seq<Detail>, depth: nat, count: nat): Option<Counted<seq<Detail>>>
    decreases items
  {
    if items == [] then Some(Counted([], count))
    else
      var before := MinimizeItems(p, items[..|items| - 1], depth, count);
      if before.None? || before.value.count + 1 > MAX_ITEMS then None
      else
        var r := Minimize(p, items[|items| - 1], depth + 1, before.value.count + 1);
        if r.None? then None else Some(Counted(before.value.value + [r.value.value], r.value.count))
  }

  /** The whole: an object, also bounded in its encoded size. No details are the empty object. */
  function MinimizeDetails(p: Patterns, details: Option<Detail>): Option<Detail> {
    if details.None? then Some(Object([]))
    else if !details.value.Object? then None
    else
      var r := Minimize(p, details.value, 0, 0);
      if r.None? || p.encodedBytes(r.value.value) > MAX_BYTES then None else Some(r.value.value)
  }

  // ----- Size and form -----

  /** The number of entries and array elements in the whole tree. */
  function Size(v: Detail): nat
    decreases v
  {
    match v
    case Object(entries) => EntriesSize(entries)
    case Array(items) => ItemsSize(items)
    case _ => 0
  }

  function EntriesSize(entries: seq<Entry>): nat
    decreases entries
  {
    if entries == [] then 0
    else
      var last := entries[|entries| - 1];
      assert last.value < last;
      EntriesSize(entries[..|entries| - 1]) + 1 + Size(last.value)
  }

  function ItemsSize(items: seq<Detail>): nat
    decreases items
  {
    if items == [] then 0 else ItemsSize(items[..|items| - 1]) + 1 + Size(items[|items| - 1])
  }

  /** Nothing is left to trim, drop or refuse, and containers are nested at most `levels` deep below this value. */
  predicate Minimal(p: Patterns, v: Detail, levels: int)
    decreases v
  {
    levels >= 0 &&
    match v
    case Object(entries) => MinimalEntries(p, entries, levels)
    case Array(items) => |items| <= MAX_ITEMS && MinimalItems(p, items, levels)
    case Fraction(finite, _) => finite
    case Text(text) => Strip(p.isSpace, text) == text && TextAllowed(p, text)
    case Foreign => false
    case _ => true
  }

  predicate MinimalEntries(p: Patterns, entries: seq<Entry>, levels: int)
    decreases entries
  {
    entries != [] ==>
      var init, last := entries[..|entries| - 1], entries[|entries| - 1];
      assert last.value < last;
      && MinimalEntries(p, init, levels)
      && last.key.Some? && Strip(p.isSpace, last.key.value) == last.key.value && KeyAllowed(p, last.key.value)
      && !HasEntry(init, last.key.value)
      && Minimal(p, last.value, levels - 1)
  }

  predicate MinimalItems(p: Patterns, items: seq<Detail>, levels: int)
    decreases items
  {
    items != [] ==> MinimalItems(p, items[..|items| - 1], levels) && Minimal(p, items[|items| - 1], levels - 1)
  }

  /** How deep containers are nested inside this value: a value without entries nests nothing. */
  function Nesting(v: Detail): nat
    decreases v
  {
    match v
    case Object(entries) => EntriesNesting(entries)
    case Array(items) => ItemsNesting(items)
    case _ => 0
  }

  function Larger(a: nat, b: nat): nat {
    if a > b then a else b
  }

  function EntriesNesting(entries: seq<Entry>): nat
    decreases entries
  {
    if entries == [] then 0
    else
      var last := entries[|entries| - 1];
      assert last.value < last;
      Larger(EntriesNesting(entries[..|entries| - 1]), 1 + Nesting(last.value))
  }

  function ItemsNesting(items: seq<Detail>): nat
    decreases items
  {
    if items == [] then 0 else Larger(ItemsNesting(items[..|items| - 1]), 1 + Nesting(items[|items| - 1]))
  }

  lemma {:induction false} MinimalNesting(p: Patterns, v: Detail, levels: int)
    requires Minimal(p, v, levels)
    ensures Nesting(v) <= levels
    decreases v
  {
    match v
    case Object(entries) => EntriesMinimalNesting(p, entries, levels);
    case Array(items) => ItemsMinimalNesting(p, items, levels);
    case _ =>
  }

  lemma {:induction false} EntriesMinimalNesting(p: Patterns, entries: seq<Entry>, levels: int)
    requires levels >= 0 && MinimalEntries(p, entries, levels)
    ensures EntriesNesting(entries) <= levels
    decreases entries
  {
    if entries != [] {
      var last := entries[|entries| - 1];
      assert last.value < last;
      EntriesMinimalNesting(p, entries[..|entries| - 1], levels);
      MinimalNesting(p, last.value, levels - 1);
    }
  }

  lemma {:induction false} ItemsMinimalNesting(p: Patterns, items: seq<Detail>, levels: int)
    requires levels >= 0 && MinimalItems(p, items, levels)
    ensures ItemsNesting(items) <= levels
    decreases items
  {
    if items != [] {
      ItemsMinimalNesting(p, items[..|items| - 1], levels);
      MinimalNesting(p, items[|items| - 1], levels - 1);
    }
  }

  // ----- What minimizing yields -----

  lemma {:induction false} PutFacts(p: Patterns, entries: seq<Entry>, key: string, value: Detail, levels: int)
    requires MinimalEntries(p, entries, levels) && Strip(p.isSpace, key) == key && KeyAllowed(p, key) &&
             Minimal(p, value, levels - 1)
    ensures var after := Put(entries, key, value);
            && MinimalEntries(p, after, levels)
            && EntriesSize(after) <= EntriesSize(entries) + 1 + Size(value)
            && |after| == |entries| + (if HasEntry(entries, key) then 0 else 1)
            && (forall other :: HasEntry(after, other) <==> other == key || HasEntry(entries, other))
    decreases |entries|
  {
    var added := Entry(Some(key), value);
    if entries == [] {
      assert [added][..0] == [];
    } else {
      var init, last := entries[..|entries| - 1], entries[|entries| - 1];
      if last.key == Some(key) {
        EntrySnoc(p, init, added, levels);
        EntrySnoc(p, init, last, levels);
        assert entries == init + [last];
      } else if HasEntry(entries, key) {
        PutFacts(p, init, key, value, levels);
        EntrySnoc(p, Put(init, key, value), last, levels);
        EntrySnoc(p, init, last, levels);
        assert entries == init + [last];
      } else {
        EntrySnoc(p, entries, added, levels);
      }
    }
  }

  lemma EntrySnoc(p: Patterns, entries: seq<Entry>, e: Entry, levels: int)
    ensures var after := entries + [e];
            && (MinimalEntries(p, after, levels) <==>
                  && MinimalEntries(p, entries, levels)
                  && e.key.Some? && Strip(p.isSpace, e.key.value) == e.key.value && KeyAllowed(p, e.key.value)
                  && !HasEntry(entries, e.key.value) && Minimal(p, e.value, levels - 1))
            && EntriesSize(after) == EntriesSize(entries) + 1 + Size(e.value)
            && (forall key :: HasEntry(after, key) <==> e.key == Some(key) || HasEntry(entries, key))
  {
    assert (entries + [e])[..|entries|] == entries;
  }

  lemma ItemSnoc(p: Patterns, items: seq<Detail>, v: Detail, levels: int)
    ensures var after := items + [v];
            && (MinimalItems(p, after, levels) <==> MinimalItems(p, items, levels) && Minimal(p, v, levels - 1))
            && ItemsSize(after) == ItemsSize(items) + 1 + Size(v)
  {
    assert (items + [v])[..|items|] == items;
  }

  /** What is accepted is minimal, and its entries were all counted. */
  lemma {:induction false} MinimizeIsMinimal(p: Patterns, v: Detail, depth: nat, count: nat)
    requires Minimize(p, v, depth, count).Some? && count <= MAX_ITEMS
    ensures var r := Minimize(p, v, depth, count).value;
            Minimal(p, r.value, MAX_DEPTH - depth) && count + Size(r.value) <= r.count <= MAX_ITEMS
    decreases v
  {
    match v
    case Object(entries) => EntriesMinimal(p, entries, depth, count);
    case Array(items) => ItemsMinimal(p, items, depth, count);
    case Text(text) => StripIdempotent(p.isSpace, text);
    case _ =>
  }

  /** One more entry after those of `init`. */
  lemma MinimizeEntriesSnoc(p: Patterns, init: seq<Entry>, last: Entry, depth: nat, count: nat)
    ensures var before := MinimizeEntries(p, init, depth, count);
            MinimizeEntries(p, init + [last], depth, count) ==
              if before.None? || !Countable(p, last, before.value.count) then None
              else WithEntry(p, before.value.value, last, Minimize(p, last.value, depth + 1, before.value.count + 1))
  {
    var entries := init + [last];
    assert entries[..|entries| - 1] == init && entries[|entries| - 1] == last;
  }

  lemma MinimizeItemsSnoc(p: Patterns, init: seq<Detail>, last: Detail, depth: nat, count: nat)
    ensures var before := MinimizeItems(p, init, depth, count);
            MinimizeItems(p, init + [last], depth, count) ==
              if before.None? || before.value.count + 1 > MAX_ITEMS then None
              else
                var r := Minimize(p, last, depth + 1, before.value.count + 1);
                if r.None? then None else Some(Counted(before.value.value + [r.value.value], r.value.count))
  {
    assert (init + [last])[..|init|] == init;
  }

  lemma {:induction false} EntriesMinimal(p: Patterns, entries: seq<Entry>, depth: nat, count: nat)
    requires depth <= MAX_DEPTH && MinimizeEntries(p, entries, depth, count).Some? && count <= MAX_ITEMS
    ensures var r := MinimizeEntries(p, entries, depth, count).value;
            MinimalEntries(p, r.value, MAX_DEPTH - depth) && count + EntriesSize(r.value) <= r.count <= MAX_ITEMS
    decreases entries
  {
    if entries != [] {
      var init, last := entries[..|entries| - 1], entries[|entries| - 1];
      assert last.value < last;
      assert entries == init + [last];
      MinimizeEntriesSnoc(p, init, last, depth, count);
      EntriesMinimal(p, init, depth, count);
      var before := MinimizeEntries(p, init, depth, count).value;
      MinimizeIsMinimal(p, last.value, depth + 1, before.count + 1);
      EntryAdded(p, before, last, Minimize(p, last.value, depth + 1, before.count + 1).value, depth, count);
    }
  }

  lemma EntryAdded(p: Patterns, before: Counted<seq<Entry>>, last: Entry, r: Counted<Detail>, depth: nat, count: nat)
    requires depth <= MAX_DEPTH && MinimalEntries(p, before.value, MAX_DEPTH - depth) &&
             count + EntriesSize(before.value) <= before.count
    requires Countable(p, last, before.count)
    requires Minimal(p, r.value, MAX_DEPTH - (depth + 1)) && before.count + 1 + Size(r.value) <= r.count
    ensures var after := Put(before.value, Strip(p.isSpace, last.key.value), r.value);
            MinimalEntries(p, after, MAX_DEPTH - depth) && count + EntriesSize(after) <= r.count
  {
    StripIdempotent(p.isSpace, last.key.value);
    PutFacts(p, before.value, Strip(p.isSpace, last.key.value), r.value, MAX_DEPTH - depth);
  }

  lemma {:induction false} ItemsMinimal(p: Patterns, items: seq<Detail>, depth: nat, count: nat)
    requires depth <= MAX_DEPTH && MinimizeItems(p, items, depth, count).Some? && count <= MAX_ITEMS
    ensures var r := MinimizeItems(p, items, depth, count).value;
            MinimalItems(p, r.value, MAX_DEPTH - depth) && count + ItemsSize(r.value) <= r.count <= MAX_ITEMS &&
                |r.value| == |items|
    decreases items
  {
    if items != [] {
      var init, last := items[..|items| - 1], items[|items| - 1];
      LastItemMinimized(p, items, depth, count);
      ItemsMinimal(p, init, depth, count);
      var before := MinimizeItems(p, init, depth, count).value;
      MinimizeIsMinimal(p, last, depth + 1, before.count + 1);
      ItemAdded(p, before, Minimize(p, last, depth + 1, before.count + 1).value, depth, count);
    }
  }

  lemma LastItemMinimized(p: Patterns, items: seq<Detail>, depth: nat, count: nat)
    requires items != [] && MinimizeItems(p, items, depth, count).Some?
    ensures var before := MinimizeItems(p, items[..|items| - 1], depth, count);
            && before.Some? && before.value.count + 1 <= MAX_ITEMS
            && var r := Minimize(p, items[|items| - 1], depth + 1, before.value.count + 1);
            && r.Some? && MinimizeItems(p, items, depth, count).value ==
                 Counted(before.value.value + [r.value.value], r.value.count)
  {
  }

  lemma ItemAdded(p: Patterns, before: Counted<seq<Detail>>, r: Counted<Detail>, depth: nat, count: nat)
    requires MinimalItems(p, before.value, MAX_DEPTH - depth) && count + ItemsSize(before.value) <= before.count
    requires Minimal(p, r.value, MAX_DEPTH - (depth + 1)) && before.count + 1 + Size(r.value) <= r.count
    ensures MinimalItems(p, before.value + [r.value], MAX_DEPTH - depth) &&
            count + ItemsSize(before.value + [r.value]) <= r.count
  {
    ItemSnoc(p, before.value, r.value, MAX_DEPTH - depth);
  }

  // ----- Minimizing again -----

  lemma PutNew(entries: seq<Entry>, key: string, value: Detail)
    requires !HasEntry(entries, key)
    ensures Put(entries, key, value) == entries + [Entry(Some(key), value)]
  {
  }

  /** A minimal value that still fits is returned as it is, and exactly its entries are counted. */
  lemma {:induction false} MinimalIsKept(p: Patterns, v: Detail, depth: nat, count: nat)
    requires depth <= MAX_DEPTH && Minimal(p, v, MAX_DEPTH - depth) && count + Size(v) <= MAX_ITEMS
    ensures Minimize(p, v, depth, count) == Some(Counted(v, count + Size(v)))
    decreases v
  {
    match v
    case Object(entries) => EntriesKept(p, entries, depth, count);
    case Array(items) => ItemsKept(p, items, depth, count);
    case _ =>
  }

  lemma {:induction false} EntriesKept(p: Patterns, entries: seq<Entry>, depth: nat, count: nat)
    requires depth <= MAX_DEPTH && MinimalEntries(p, entries, MAX_DEPTH - depth) &&
             count + EntriesSize(entries) <= MAX_ITEMS
    ensures MinimizeEntries(p, entries, depth, count) == Some(Counted(entries, count + EntriesSize(entries)))
    decreases entries
  {
    if entries != [] {
      var init, last := entries[..|entries| - 1], entries[|entries| - 1];
      assert last.value < last;
      LastEntry(p, entries, MAX_DEPTH - depth);
      var counted := count + EntriesSize(init);
      assert MinimizeEntries(p, init, depth, count) == Some(Counted(init, counted)) by {
        EntriesKept(p, init, depth, count);
      }
      assert Minimize(p, last.value, depth + 1, counted + 1) ==
          Some(Counted(last.value, counted + 1 + Size(last.value))) by {
        MinimalIsKept(p, last.value, depth + 1, counted + 1);
      }
      EntryKept(p, init, last, depth, count);
    }
  }

  lemma LastEntry(p: Patterns, entries: seq<Entry>, levels: int)
    requires entries != [] && MinimalEntries(p, entries, levels)
    ensures var init, last := entries[..|entries| - 1], entries[|entries| - 1];
            && entries == init + [last] && MinimalEntries(p, init, levels)
            && EntriesSize(entries) == EntriesSize(init) + 1 + Size(last.value)
            && levels >= 1 && Minimal(p, last.value, levels - 1)
            && last.key.Some? && Strip(p.isSpace, last.key.value) == last.key.value && KeyAllowed(p, last.key.value)
            && !HasEntry(init, last.key.value)
  {
    NestingLeft(p, entries[|entries| - 1].value, levels - 1);
  }

  lemma EntryKept(p: Patterns, init: seq<Entry>, last: Entry, depth: nat, count: nat)
    requires MinimizeEntries(p, init, depth, count) == Some(Counted(init, count + EntriesSize(init)))
    requires Countable(p, last, count + EntriesSize(init)) && Strip(p.isSpace, last.key.value) == last.key.value &&
             !HasEntry(init, last.key.value)
    requires Minimize(p, last.value, depth + 1, count + EntriesSize(init) + 1) ==
             Some(Counted(last.value, count + EntriesSize(init) + 1 + Size(last.value)))
    ensures MinimizeEntries(p, init + [last], depth, count) ==
            Some(Counted(init + [last], count + EntriesSize(init) + 1 + Size(last.value)))
  {
    MinimizeEntriesSnoc(p, init, last, depth, count);
    PutNew(init, last.key.value, last.value);
  }

  lemma NestingLeft(p: Patterns, v: Detail, levels: int)
    requires Minimal(p, v, levels)
    ensures levels >= 0
  {
  }

  lemma {:induction false} ItemsKept(p: Patterns, items: seq<Detail>, depth: nat, count: nat)
    requires depth <= MAX_DEPTH && MinimalItems(p, items, MAX_DEPTH - depth) && count + ItemsSize(items) <= MAX_ITEMS
    ensures MinimizeItems(p, items, depth, count) == Some(Counted(items, count + ItemsSize(items)))
    decreases items
  {
    if items != [] {
      var init, last := items[..|items| - 1], items[|items| - 1];
      assert items == init + [last];
      ItemSnoc(p, init, last, MAX_DEPTH - depth);
      ItemsKept(p, init, depth, count);
      NestingLeft(p, last, MAX_DEPTH - depth - 1);
      MinimalIsKept(p, last, depth + 1, count + ItemsSize(init) + 1);
      MinimizeItemsSnoc(p, init, last, depth, count);
    }
  }

  /** Accepted details have at most 40 entries in all and nest at most 4 deep, and minimizing them again returns
      them unchanged, also when keys collided after trimming. */
  lemma DetailsAreMinimized(p: Patterns, details: Option<Detail>)
    requires MinimizeDetails(p, details).Some?
    ensures var r := MinimizeDetails(p, details).value;
            && Size(r) <= MAX_ITEMS && Nesting(r) <= MAX_DEPTH
            && Minimal(p, r, MAX_DEPTH)
            && (details.Some? ==> MinimizeDetails(p, Some(r)) == Some(r))
  {
    if details.Some? {
      MinimizeIsMinimal(p, details.value, 0, 0);
      MinimalIsKept(p, MinimizeDetails(p, details).value, 0, 0);
    }
    MinimalNesting(p, MinimizeDetails(p, details).value, MAX_DEPTH);
  }

  // ----- The service -----

  /** The shared counter of one call. */
  class ItemCount {
    var value: nat

    constructor ()
      ensures value == 0
    {
      value := 0;
    }
  }

  method Assign(entries: seq<Entry>, key: string, value: Detail) returns (after: seq<Entry>)
    ensures after == Put(entries, key, value)
  {
    var i := |entries|;
    var tail: seq<Entry> := [];
    assert entries[..i] == entries && Put(entries, key, value) + tail == Put(entries, key, value);
    PutAppends(entries, key, value);
    while i > 0 && entries[i - 1].key != Some(key)
      invariant 0 <= i <= |entries| && tail == entries[i..]
      invariant Put(entries, key, value) == if HasEntry(entries[..i], key) then Put(entries[..i], key, value) + tail
                else entries + [Entry(Some(key), value)]
    {
      i := i - 1;
      PutSkips(entries, i, key, value, tail);
      tail := [entries[i]] + tail;
    }
    if i == 0 {
      after := entries + [Entry(Some(key), value)];
    } else {
      after := entries[..i - 1] + [Entry(Some(key), value)] + tail;
      assert entries[..i][..i - 1] == entries[..i - 1];
    }
  }

  lemma PutAppends(entries: seq<Entry>, key: string, value: Detail)
    ensures !HasEntry(entries, key) ==> Put(entries, key, value) == entries + [Entry(Some(key), value)]
  {
  }

  lemma PutSkips(entries: seq<Entry>, i: nat, key: string, value: Detail, tail: seq<Entry>)
    requires i < |entries| && entries[i].key != Some(key) && tail == entries[i + 1..]
    ensures HasEntry(entries[..i + 1], key) <==> HasEntry(entries[..i], key)
    ensures HasEntry(entries[..i + 1], key) ==>
            Put(entries[..i + 1], key, value) + tail == Put(entries[..i], key, value) + ([entries[i]] + tail)
    ensures [entries[i]] + tail == entries[i..]
  {
    assert entries[..i + 1][..i] == entries[..i];
  }

  /** The recursive walk, with its counter shared by all levels. */
  method MinimizeValue(p: Patterns, v: Detail, depth: nat, itemCount: ItemCount) returns (r: Option<Detail>)
    modifies itemCount
    ensures var m := Minimize(p, v, depth, old(itemCount.value));
            if m.Some? then r == Some(m.value.value) && itemCount.value == m.value.count else r == None
    decreases v
  {
    if depth > MAX_DEPTH {
      return None;
    }
    match v
    case Object(entries) =>
      var result := MinimizeMapping(p, v, entries, depth, itemCount);
      r := if result.Some? then Some(Object(result.value)) else None;
    case Array(items) =>
      if |items| > MAX_ITEMS {
        return None;
      }
      var result := MinimizeList(p, v, items, depth, itemCount);
      r := if result.Some? then Some(Array(result.value)) else None;
    case Fraction(finite, _) => r := if finite then Some(v) else None;
    case Text(text) =>
      var normalized := Strip(p.isSpace, text);
      r := if TextAllowed(p, normalized) then Some(Text(normalized)) else None;
    case Foreign => r := None;
    case _ => r := Some(v);
  }

  method MinimizeEventDetails(p: Patterns, details: Option<Detail>) returns (r: Option<Detail>)
    ensures r == MinimizeDetails(p, details)
    ensures r.Some? ==> Size(r.value) <= MAX_ITEMS && Nesting(r.value) <= MAX_DEPTH
  {
    if details.None? {
      DetailsAreMinimized(p, details);
      return Some(Object([]));
    }
    if !details.value.Object? {
      return None;
    }
    var itemCount := new ItemCount();
    var minimized := MinimizeValue(p, details.value, 0, itemCount);
    if minimized.None? || p.encodedBytes(minimized.value) > MAX_BYTES {
      return None;
    }
    DetailsAreMinimized(p, details);
    return minimized;
  }

  method MinimizeMapping(p: Patterns, ghost v: Detail, entries: seq<Entry>, depth: nat, itemCount: ItemCount)
      returns (r: Option<seq<Entry>>)
    requires v == Object(entries)
    modifies itemCount
    ensures var m := MinimizeEntries(p, entries, depth, old(itemCount.value));
            if m.Some? then r == Some(m.value.value) && itemCount.value == m.value.count else r == None
    decreases v, 0
  {
    var result: seq<Entry> := [];
    ghost var start := itemCount.value;
    for i := 0 to |entries|
      invariant MinimizeEntries(p, entries[..i], depth, start) == Some(Counted(result, itemCount.value))
    {
      EntriesNext(p, entries, i, depth, start, Counted(result, itemCount.value));
      if entries[i].key.None? {
        EntriesFail(p, entries, i + 1, depth, start);
        return None;
      }
      var key := Strip(p.isSpace, entries[i].key.value);
      itemCount.value := itemCount.value + 1;
      if !KeyAllowed(p, key) || itemCount.value > MAX_ITEMS {
        EntriesFail(p, entries, i + 1, depth, start);
        return None;
      }
      var value := MinimizeValue(p, entries[i].value, depth + 1, itemCount);
      if value.None? {
        EntriesFail(p, entries, i + 1, depth, start);
        return None;
      }
      result := Assign(result, key, value.value);
    }
    assert entries[..|entries|] == entries;
    return Some(result);
  }

  lemma EntriesNext(p: Patterns, entries: seq<Entry>, i: nat, depth: nat, count: nat, before: Counted<seq<Entry>>)
    requires i < |entries| && MinimizeEntries(p, entries[..i], depth, count) == Some(before)
    ensures MinimizeEntries(p, entries[..i + 1], depth, count) ==
            if !Countable(p, entries[i], before.count) then None
            else WithEntry(p, before.value, entries[i], Minimize(p, entries[i].value, depth + 1, before.count + 1))
  {
    assert entries[..i + 1] == entries[..i] + [entries[i]];
    MinimizeEntriesSnoc(p, entries[..i], entries[i], depth, count);
  }

  /** Once an entry is refused, the mapping is. */
  lemma {:induction false} EntriesFail(p: Patterns, entries: seq<Entry>, n: nat, depth: nat, count: nat)
    requires n <= |entries| && MinimizeEntries(p, entries[..n], depth, count).None?
    ensures MinimizeEntries(p, entries, depth, count).None?
    decreases |entries| - n
  {
    if n == |entries| {
      assert entries[..n] == entries;
    } else {
      assert entries[..n + 1][..n] == entries[..n];
      EntriesFail(p, entries, n + 1, depth, count);
    }
  }

  method MinimizeList(p: Patterns, ghost v: Detail, items: seq<Detail>, depth: nat, itemCount: ItemCount)
      returns (r: Option<seq<Detail>>)
    requires v == Array(items)
    modifies itemCount
    ensures var m := MinimizeItems(p, items, depth, old(itemCount.value));
            if m.Some? then r == Some(m.value.value) && itemCount.value == m.value.count else r == None
    decreases v, 0
  {
    var result: seq<Detail> := [];
    ghost var start := itemCount.value;
    for i := 0 to |items|
      invariant MinimizeItems(p, items[..i], depth, start) == Some(Counted(result, itemCount.value))
    {
      assert items[..i + 1][..i] == items[..i];
      itemCount.value := itemCount.value + 1;
      if itemCount.value > MAX_ITEMS {
        ItemsFail(p, items, i + 1, depth, start);
        return None;
      }
      var value := MinimizeValue(p, items[i], depth + 1, itemCount);
      if value.None? {
        ItemsFail(p, items, i + 1, depth, start);
        return None;
      }
      result := result + [value.value];
    }
    assert items[..|items|] == items;
    return Some(result);
  }

  lemma {:induction false} ItemsFail(p: Patterns, items: seq<Detail>, n: nat, depth: nat, count: nat)
    requires n <= |items| && MinimizeItems(p, items[..n], depth, count).None?
    ensures MinimizeItems(p, items, depth, count).None?
    decreases |items| - n
  {
    if n == |items| {
      assert items[..n] == items;
    } else {
      assert items[..n + 1][..n] == items[..n];
      ItemsFail(p, items, n + 1, depth, count);
    }
  }
}
