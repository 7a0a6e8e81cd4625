/** What a questionnaire stores and what it refuses, said of the given answers themselves. */
module Sc06Meaning {
  import opened Options
  import opened Texts
  import opened Sc06Rules
  import opened Sc06Theorems

  // ----- One answer -----

  /** Something was answered. */
  predicate Given(answers: Answers, id: string) {
    id in answers && answers[id] != Null && answers[id] != Str("") && answers[id] != List([])
  }

  predicate SaysYes(h: Host, v: Value) {
    || v == Bool(true) || v == Num(1)
    || (v.Str? && h.lower(Strip(h.isSpace, v.text)) in {"1", "true", "on", "yes", "sim"})
  }

  predicate SaysNo(h: Host, v: Value) {
    || v == Bool(false) || v == Num(0)
    || (v.Str? && h.lower(Strip(h.isSpace, v.text)) in {"0", "false", "off", "no", "nao", "não"})
  }

  /** A text that suits a question of another kind: an option, a date, an address, within both bounds. */
  predicate SuitsText(h: Host, q: Question, v: Value) {
    && v.Str?
    && var s := Strip(h.isSpace, v.text);
       && (q.kind == Choice ==> q.options.Some? && s in q.options.value)
       && (q.kind == Date ==> h.isDate(s))
       && (q.kind == Email ==> h.isEmail(s))
       && (q.minLength.Some? ==> |s| >= q.minLength.value)
       && (q.maxLength.Some? ==> |s| <= q.maxLength.value)
  }

  predicate Suits(h: Host, q: Question, v: Value) {
    if q.kind == Boolean then SaysYes(h, v) || SaysNo(h, v) else SuitsText(h, q, v)
  }

  /** Yes and no are stored as such, everything else as its trimmed text. */
  ghost predicate StoredFor(h: Host, q: Question, v: Value, stored: Value) {
    if q.kind == Boolean then
      (stored == Bool(true) && SaysYes(h, v)) || (stored == Bool(false) && SaysNo(h, v))
    else v.Str? && stored.Str? && Trimmed(h.isSpace, v.text, stored.text)
  }

  lemma NeverBoth(h: Host, v: Value)
    ensures !(SaysYes(h, v) && SaysNo(h, v))
  {
  }

  lemma CoerceMeans(h: Host, q: Question, v: Value)
    ensures Coerce(h, q, v).Some? <==> Suits(h, q, v)
    ensures Coerce(h, q, v).Some? ==> StoredFor(h, q, v, Coerce(h, q, v).value)
    ensures q.kind == Boolean ==> (Coerce(h, q, v) == Some(Bool(true)) <==> SaysYes(h, v))
    ensures q.kind == Boolean ==> (Coerce(h, q, v) == Some(Bool(false)) <==> SaysNo(h, v))
  {
    NeverBoth(h, v);
    if q.kind != Boolean && v.Str? {
      StripTrims(h.isSpace, v.text);
    }
  }

  lemma EmptyMeans(answers: Answers, id: string)
    ensures Given(answers, id) <==> id in answers && !IsEmpty(answers[id])
  {
  }

  // ----- The rule between two answers -----

  /** A partner is declared to exist, and the one named is not among those named elsewhere. */
  predicate PartnersDisagree(h: Host, m: Answers) {
    && "has_married_partner" in m && m["has_married_partner"] == Bool(true)
    && "married_partner_name" in m && m["married_partner_name"].Str?
    && "partner_names" in m && m["partner_names"].Str?
    && Strip(h.isSpace, m["married_partner_name"].text) != "" && Strip(h.isSpace, m["partner_names"].text) != ""
    && !h.isPartnerDeclared(m["married_partner_name"].text, m["partner_names"].text)
  }

  lemma PartnerRuleMeans(h: Host, m: Answers)
    ensures HasPartnerMismatch(h, m) <==> PartnersDisagree(h, m)
  {
  }

  // ----- What is stored -----

  /** The stored answers hold exactly the given answers to the active questions, each of them in its stored form; on
      completion every active required question has one. */
  lemma WhatIsStored(h: Host, schema: Schema, answers: Answers, complete: bool, k: nat)
    requires Sanitize(h, schema, answers, complete).Stored? && k < |Flat(schema)|
    ensures var m := Sanitize(h, schema, answers, complete).answers;
            var q := Flat(schema)[k].question;
            && (q.id in m <==> Active(Flat(schema)[k], m) && Given(answers, q.id))
            && (q.id in m ==> Suits(h, q, answers[q.id]) && StoredFor(h, q, answers[q.id], m[q.id]))
            && (q.id in m && q.kind == Boolean ==>
                (m[q.id] == Bool(true) <==> SaysYes(h, answers[q.id])) &&
                (m[q.id] == Bool(false) <==> SaysNo(h, answers[q.id])))
            && (complete && q.required && Active(Flat(schema)[k], m) ==> q.id in m)
            && !(complete && PartnersDisagree(h, m))
  {
    var items := Flat(schema);
    var q := items[k].question;
    var m := Pass(items, Kept(h, answers));
    var p := Problems(h, items, answers, complete);
    PartnerRuleMeans(h, m);
    EmptyReport(h, m, p, complete);
    ProblemsExact(h, items, answers, complete);
    assert ReportedExactly(h, items[k], m, answers, complete, p);
    PassAt(h, items, Kept(h, answers), k);
    EmptyMeans(answers, q.id);
    if q.id in answers {
      CoerceMeans(h, q, answers[q.id]);
    }
  }

  lemma EmptyReport(h: Host, m: Answers, p: map<string, seq<Problem>>, complete: bool)
    ensures WithPartnerRule(h, m, p, complete) == map[] <==> p == map[] && !(complete && HasPartnerMismatch(h, m))
  {
    if complete && HasPartnerMismatch(h, m) {
      assert "married_partner_name" in WithPartnerRule(h, m, p, complete);
    }
  }

  // ----- What is refused -----

  /** What is wrong with a question, when the answers stored are `m`. */
  function ProblemWith(h: Host, item: Item, m: Answers, answers: Answers, complete: bool): Option<Problem> {
    var q := item.question;
    if !Active(item, m) then None
    else if Given(answers, q.id) then (if Suits(h, q, answers[q.id]) then None else Some(Invalid))
    else if complete && q.required then Some(Required)
    else None
  }

  ghost predicate SomeWrong(h: Host, items: seq<Item>, m: Answers, answers: Answers, complete: bool) {
    exists item <- items :: ProblemWith(h, item, m, answers, complete).Some?
  }

  /** A report names a wrong question, and first what is wrong with it. */
  ghost predicate Reports(h: Host, item: Item, m: Answers, answers: Answers, complete: bool,
                          report: map<string, seq<Problem>>) {
    var wrong, id := ProblemWith(h, item, m, answers, complete), item.question.id;
    wrong.Some? ==> id in report && report[id] != [] && report[id][0] == wrong.value
  }

  lemma WrongIsReported(h: Host, items: seq<Item>, answers: Answers, complete: bool, item: Item)
    requires Ordered(h, items) && item in items
    ensures var p := Problems(h, items, answers, complete);
            var wrong := ProblemWith(h, item, Pass(items, Kept(h, answers)), answers, complete);
            && (item.question.id in p <==> wrong.Some?)
            && (wrong.Some? ==> p[item.question.id] == [wrong.value])
  {
    var q := item.question;
    var m := Pass(items, Kept(h, answers));
    ProblemsExact(h, items, answers, complete);
    assert ReportedExactly(h, item, m, answers, complete, Problems(h, items, answers, complete));
    EmptyMeans(answers, q.id);
    if q.id in answers {
      CoerceMeans(h, q, answers[q.id]);
    }
  }

  lemma RefusedIffWrong(h: Host, items: seq<Item>, answers: Answers, complete: bool)
    requires Ordered(h, items)
    ensures Problems(h, items, answers, complete) != map[] <==>
            SomeWrong(h, items, Pass(items, Kept(h, answers)), answers, complete)
  {
    var m := Pass(items, Kept(h, answers));
    var p := Problems(h, items, answers, complete);
    if p != map[] {
      ProblemsExact(h, items, answers, complete);
      var id :| id in p;
      var item :| item in items && item.question.id == id;
      WrongIsReported(h, items, answers, complete, item);
    }
    if SomeWrong(h, items, m, answers, complete) {
      var item :| item in items && ProblemWith(h, item, m, answers, complete).Some?;
      WrongIsReported(h, items, answers, complete, item);
    }
  }

  /** Answers are refused exactly when some active question is wrong or, on completion, the partners disagree; and the
      report names each wrong question with what is wrong about it. Here `m` is what the other answers come to. */
  lemma WhatIsRefused(h: Host, schema: Schema, answers: Answers, complete: bool)
    requires Accepted(h, schema)
    ensures var items := Flat(schema);
            var m := Pass(items, Kept(h, answers));
            var result := Sanitize(h, schema, answers, complete);
            && (result.Rejected? <==>
                SomeWrong(h, items, m, answers, complete) || (complete && PartnersDisagree(h, m)))
            && (result.Rejected? ==>
                forall item <- items :: Reports(h, item, m, answers, complete, result.problems))
            && (result.Rejected? && complete && PartnersDisagree(h, m) ==>
                "married_partner_name" in result.problems && PartnerMismatch in result.problems["married_partner_name"])
  {
    var items := Flat(schema);
    var m := Pass(items, Kept(h, answers));
    var p := Problems(h, items, answers, complete);
    PartnerRuleMeans(h, m);
    EmptyReport(h, m, p, complete);
    RefusedIffWrong(h, items, answers, complete);
    forall item | item in items
      ensures Reports(h, item, m, answers, complete, WithPartnerRule(h, m, p, complete))
    {
      WrongIsNamed(h, items, answers, complete, item);
    }
    ReportKeeps(h, m, p, complete);
  }

  lemma WrongIsNamed(h: Host, items: seq<Item>, answers: Answers, complete: bool, item: Item)
    requires Ordered(h, items) && item in items
    ensures var m := Pass(items, Kept(h, answers));
            Reports(h, item, m, answers, complete,
                    WithPartnerRule(h, m, Problems(h, items, answers, complete), complete))
  {
    WrongIsReported(h, items, answers, complete, item);
    ReportKeeps(h, Pass(items, Kept(h, answers)), Problems(h, items, answers, complete), complete);
  }

  lemma ReportKeeps(h: Host, m: Answers, p: map<string, seq<Problem>>, complete: bool)
    ensures var r := WithPartnerRule(h, m, p, complete);
            && (forall id <- p :: id in r && p[id] <= r[id])
            && (complete && HasPartnerMismatch(h, m) ==>
                "married_partner_name" in r && PartnerMismatch in r["married_partner_name"])
  {
    if complete && HasPartnerMismatch(h, m) {
      var r := WithPartnerRule(h, m, p, complete);
      assert r["married_partner_name"][|r["married_partner_name"]| - 1] == PartnerMismatch;
    }
  }

  // ----- What an accepted schema promises -----

  /** Every option of a choice can be answered and is then stored as it stands. */
  lemma OptionsCanBeChosen(h: Host, schema: Schema, k: nat, option: string)
    requires Accepted(h, schema) && k < |Flat(schema)|
    requires var q := Flat(schema)[k].question; q.kind == Choice && q.options.Some? && option in q.options.value
    ensures var q := Flat(schema)[k].question;
            option != "" && Suits(h, q, Str(option)) && Coerce(h, q, Str(option)) == Some(Str(option))
  {
    assert ValidQuestion(h, Flat(schema)[k].question);
  }

  /** A choice has options, and some length is allowed. */
  lemma SomethingCanBeAnswered(h: Host, schema: Schema, k: nat)
    requires Accepted(h, schema) && k < |Flat(schema)|
    ensures var q := Flat(schema)[k].question;
            && (q.kind == Choice ==> q.options.Some? && q.options.value != [])
            && (q.kind != Choice ==> q.options == None)
            && exists n: nat :: LengthSuits(q, n)
  {
    var q := Flat(schema)[k].question;
    assert ValidQuestion(h, q);
    assert LengthSuits(q, if q.minLength.Some? then q.minLength.value else 0);
  }

  predicate LengthSuits(q: Question, n: nat) {
    (q.minLength.Some? ==> q.minLength.value <= n) && (q.maxLength.Some? ==> n <= q.maxLength.value)
  }

  // ----- What the validator asks of a question and of a condition -----

  /** A name of 1 to 80 lower-case letters, digits and underscores that begins with a letter. */
  predicate IsName(s: string) {
    && 1 <= |s| && |s| <= 80 && 'a' <= s[0] && s[0] <= 'z'
    && forall i :: 0 <= i < |s| ==> 'a' <= s[i] <= 'z' || '0' <= s[i] <= '9' || s[i] == '_'
  }

  lemma NameMeans(s: string)
    ensures IsIdentifier(s) <==> IsName(s)
  {
    if IsName(s) {
      forall c | c in s
        ensures 'a' <= c <= 'z' || '0' <= c <= '9' || c == '_'
      {
        var i :| 0 <= i < |s| && s[i] == c;
      }
    }
    if IsIdentifier(s) {
      forall i | 0 <= i < |s|
        ensures 'a' <= s[i] <= 'z' || '0' <= s[i] <= '9' || s[i] == '_'
      {
        assert s[i] in s;
      }
    }
  }

  /** A choice has options, which are distinct, trimmed and not blank, and nothing else has any; lengths are for free
      texts and addresses, and some length is allowed. */
  lemma QuestionMeans(h: Host, q: Question)
    ensures ValidQuestion(h, q) <==>
              && IsName(q.id)
              && (q.kind == Choice <==> q.options.Some?)
              && (q.kind == Choice ==>
                    && |q.options.value| >= 1
                    && (forall o <- q.options.value :: o != "" && Strip(h.isSpace, o) == o)
                    && forall i, j :: 0 <= i < j < |q.options.value| ==> q.options.value[i] != q.options.value[j])
              && (q.kind == Choice || q.kind == Boolean || q.kind == Date ==>
                  q.minLength == None && q.maxLength == None)
              && (q.minLength.Some? ==> 0 <= q.minLength.value) && (q.maxLength.Some? ==> 0 <= q.maxLength.value)
              && exists n: nat :: LengthSuits(q, n)
  {
    NameMeans(q.id);
    if q.minLength.Some? && 0 <= q.minLength.value {
      assert LengthSuits(q, q.minLength.value) <==> q.maxLength.Some? ==> q.minLength.value <= q.maxLength.value;
    } else if q.minLength.None? {
      assert LengthSuits(q, 0) <==> q.maxLength.Some? ==> 0 <= q.maxLength.value;
    }
  }

  /** How deep a condition is nested. */
  function Depth(c: Condition): nat
    decreases c
  {
    if c.Composite? then 1 + DepthOf(c.children) else 1
  }

  function DepthOf(children: seq<Condition>): nat
    decreases children
  {
    if children == [] then 0
    else
      var rest, last := DepthOf(children[..|children| - 1]), Depth(children[|children| - 1]);
      if last > rest then last else rest
  }

  lemma {:induction false} DepthOfIs(children: seq<Condition>, n: int)
    ensures DepthOf(children) <= n <==> n >= 0 && forall child <- children :: Depth(child) <= n
    decreases |children|
  {
    if children != [] {
      var init := children[..|children| - 1];
      DepthOfIs(init, n);
      var last := children[|children| - 1];
      assert children == init + [last];
      var rest := DepthOf(init);
      assert DepthOf(children) == if Depth(last) > rest then Depth(last) else rest;
      assert DepthOf(children) <= n <==> rest <= n && Depth(last) <= n;
      if forall child <- children :: Depth(child) <= n {
        assert last in children && forall child <- init :: child in children;
      }
    }
  }

  /** A value that an answer to this question can have as it is stored. */
  predicate Comparable(h: Host, q: Question, v: Value) {
    if q.kind == Boolean then v == Bool(true) || v == Bool(false)
    else SuitsText(h, q, v) && Strip(h.isSpace, v.text) == v.text
  }

  predicate Refers(h: Host, items: seq<Item>, before: nat, field: string, values: seq<Value>)
    requires before <= |items|
  {
    exists k :: 0 <= k < before && items[k].question.id == field &&
        forall v <- values :: Comparable(h, items[k].question, v)
  }

  /** A condition that says something, of questions asked before. */
  predicate Sensible(h: Host, items: seq<Item>, c: Condition, before: nat)
    requires before <= |items|
    decreases c
  {
    match c
    case Composite(_, children) => |children| >= 1 && forall child <- children :: Sensible(h, items, child, before)
    case Compare(_, field, value) => Refers(h, items, before, field, [value])
    case Member(field, values) => |values| >= 1 && Refers(h, items, before, field, values)
    case Unsupported => false
  }

  lemma ComparableIs(h: Host, q: Question, v: Value)
    ensures Comparable(h, q, v) <==> ValidValue(h, q, v)
  {
  }

  lemma RefersIs(h: Host, items: seq<Item>, before: nat, field: string, values: seq<Value>)
    requires before <= |items|
    ensures Refers(h, items, before, field, values) <==> ValidField(h, items, before, field, values)
  {
    forall k, v | 0 <= k < before && v in values
      ensures Comparable(h, items[k].question, v) <==> ValidValue(h, items[k].question, v)
    {
      ComparableIs(h, items[k].question, v);
    }
  }

  /** The validator accepts the sensible conditions of at most ten levels. */
  lemma {:induction false} ConditionMeans(h: Host, items: seq<Item>, c: Condition, before: nat, depth: nat)
    requires before <= |items|
    ensures ValidCondition(h, items, c, before, depth) <==> Sensible(h, items, c, before) && depth + Depth(c) <= 10
    decreases c
  {
    match c
    case Composite(_, children) =>
      forall child | child in children
        ensures ValidCondition(h, items, child, before, depth + 1) <==>
                Sensible(h, items, child, before) && depth + 1 + Depth(child) <= 10
      {
        ConditionMeans(h, items, child, before, depth + 1);
      }
      DepthOfIs(children, 9 - depth);
    case Compare(_, field, value) => RefersIs(h, items, before, field, [value]);
    case Member(field, values) => RefersIs(h, items, before, field, values);
    case Unsupported =>
  }
  // ----- The order of the report -----

  /** The chosen items stand at the positions `at`, which increase. */
  ghost predicate PickedAt(items: seq<Item>, chosen: seq<Item>, at: seq<nat>) {
    && |at| == |chosen|
    && (forall i :: 0 <= i < |at| ==> at[i] < |items| && chosen[i] == items[at[i]])
    && (forall i, j :: 0 <= i < j < |at| ==> at[i] < at[j])
  }

  ghost predicate KeepsOrder(items: seq<Item>, chosen: seq<Item>) {
    exists at: seq<nat> :: PickedAt(items, chosen, at)
  }

  lemma PickedNext(init: seq<Item>, last: Item, chosen: seq<Item>)
    requires KeepsOrder(init, chosen)
    ensures KeepsOrder(init + [last], chosen) && KeepsOrder(init + [last], chosen + [last])
  {
    var at: seq<nat> :| PickedAt(init, chosen, at);
    assert PickedAt(init + [last], chosen, at);
    assert PickedAt(init + [last], chosen + [last], at + [|init|]);
  }

  lemma {:induction false} AnsweredKeepOrder(items: seq<Item>, stored: Answers)
    ensures KeepsOrder(items, WithAnswer(items, stored))
    decreases |items|
  {
    if items == [] {
      assert PickedAt(items, [], []);
    } else {
      var init, last := items[..|items| - 1], items[|items| - 1];
      AnsweredKeepOrder(init, stored);
      PickedNext(init, last, WithAnswer(init, stored));
      assert items == init + [last];
    }
  }

  lemma {:induction false} ActiveKeepOrder(items: seq<Item>, put: Question -> Option<Value>)
    ensures KeepsOrder(items, ActiveItems(items, put))
    decreases |items|
  {
    if items == [] {
      assert PickedAt(items, [], []);
    } else {
      var init, last := items[..|items| - 1], items[|items| - 1];
      ActiveKeepOrder(init, put);
      PickedNext(init, last, ActiveItems(init, put));
      assert items == init + [last];
    }
  }

  /** Whatever answers are stored, the rows of the report stand in schema order, each question once. */
  lemma ReportKeepsOrder(h: Host, items: seq<Item>, stored: Answers)
    ensures KeepsOrder(items, ReportRows(h, items, stored))
  {
    var active := ActiveItems(items, Coerced(h, stored));
    ActiveKeepOrder(items, Coerced(h, stored));
    AnsweredKeepOrder(active, stored);
    var a: seq<nat> :| PickedAt(items, active, a);
    var b: seq<nat> :| PickedAt(active, WithAnswer(active, stored), b);
    assert PickedAt(items, WithAnswer(active, stored), seq(|b|, i requires 0 <= i < |b| => a[b[i]]));
  }
}
