/** The questionnaire's validator as the program writes it: two passes of loops over sections and questions that
    fill dictionaries. They accept exactly the schemas that obey the rules on the flat list of questions. */
module Sc06Engine {
  import opened Options
  import opened Sc06Rules

  // ----- Sections and flat positions -----

  function Start(schema: Schema, s: nat): nat
    requires s <= |schema|
  {
    |Flat(schema[..s])|
  }

  lemma {:induction false} FlatPrefix(schema: Schema, s: nat)
    requires s <= |schema|
    ensures Start(schema, s) <= |Flat(schema)| && Flat(schema)[..Start(schema, s)] == Flat(schema[..s])
    decreases |schema| - s
  {
    if s == |schema| {
      assert schema[..s] == schema;
    } else {
      FlatPrefix(schema, s + 1);
      FlatSection(schema, s);
      assert Flat(schema)[..Start(schema, s)] == Flat(schema)[..Start(schema, s + 1)][..Start(schema, s)];
    }
  }

  lemma FlatSection(schema: Schema, s: nat)
    requires s < |schema|
    ensures Flat(schema[..s + 1]) == Flat(schema[..s]) + SectionItems(schema[s], Start(schema, s))
  {
    assert schema[..s + 1][..s] == schema[..s];
  }

  /** Question `j` of section `s` is found at its flat position. */
  lemma FlatAt(schema: Schema, s: nat, j: nat)
    requires s < |schema| && j < |schema[s].questions|
    ensures Start(schema, s) + j < Start(schema, s + 1) <= |Flat(schema)|
    ensures Flat(schema)[Start(schema, s) + j] ==
            Item(schema[s].id, schema[s].visibleWhen, Start(schema, s), schema[s].questions[j])
  {
    FlatPrefix(schema, s + 1);
    FlatSection(schema, s);
    assert Flat(schema)[Start(schema, s) + j] == Flat(schema)[..Start(schema, s + 1)][Start(schema, s) + j];
  }

  lemma FlatNext(schema: Schema, s: nat)
    requires s < |schema|
    ensures Start(schema, s + 1) == Start(schema, s) + |schema[s].questions|
  {
    FlatSection(schema, s);
  }

  lemma {:induction false} FlatOwner(schema: Schema, k: nat) returns (s: nat, j: nat)
    requires k < |Flat(schema)|
    ensures s < |schema| && j < |schema[s].questions| && k == Start(schema, s) + j
    decreases |schema|
  {
    var n := |schema| - 1;
    var init := schema[..n];
    assert schema[..n + 1] == schema;
    FlatSection(schema, n);
    if k < Start(schema, n) {
      s, j := FlatOwner(init, k);
      assert init[..s] == schema[..s];
    } else {
      s, j := n, k - Start(schema, n);
    }
  }

  // ----- The validator -----

  /** The dictionaries the validator fills in its first pass. */
  predicate Indexed(items: seq<Item>, positions: map<string, nat>, definitions: map<string, Question>) {
    && (forall k :: 0 <= k < |items| ==>
          var q := items[k].question;
          q.id in positions && positions[q.id] == k && q.id in definitions && definitions[q.id] == q)
    && (forall id <- positions :: positions[id] < |items| && items[positions[id]].question.id == id)
  }

  predicate CheckField(h: Host, positions: map<string, nat>, definitions: map<string, Question>, before: nat,
                       field: string, values: seq<Value>) {
    && field in positions && field in definitions
    && positions[field] < before
    && forall v <- values :: ValidValue(h, definitions[field], v)
  }

  predicate CheckCondition(h: Host, positions: map<string, nat>, definitions: map<string, Question>, c: Condition,
                           before: nat, depth: nat)
    decreases c
  {
    depth < MAX_CONDITION_DEPTH &&
    match c
    case Composite(_, children) =>
      children != [] && forall child <- children :: CheckCondition(h, positions, definitions, child, before, depth + 1)
    case Compare(_, field, value) => CheckField(h, positions, definitions, before, field, [value])
    case Member(field, values) => values != [] && CheckField(h, positions, definitions, before, field, values)
    case Unsupported => false
  }

  lemma CheckFieldCorrect(h: Host, items: seq<Item>, positions: map<string, nat>, definitions: map<string, Question>,
                          before: nat, field: string, values: seq<Value>)
    requires before <= |items| && Indexed(items, positions, definitions)
    ensures CheckField(h, positions, definitions, before, field, values) <==>
            ValidField(h, items, before, field, values)
  {
    if field in positions {
      var k := positions[field];
      assert items[k].question.id == field;
    }
  }

  /** Looking a field up in the dictionaries is looking for it among the earlier questions. */
  lemma {:induction false} CheckConditionCorrect(h: Host, items: seq<Item>, positions: map<string, nat>,
                                                 definitions: map<string, Question>, c: Condition, before: nat,
                                                 depth: nat)
    requires before <= |items| && Indexed(items, positions, definitions)
    ensures CheckCondition(h, positions, definitions, c, before, depth) <==> ValidCondition(h, items, c, before, depth)
    decreases c
  {
    match c
    case Composite(_, children) =>
      forall child | child in children
        ensures CheckCondition(h, positions, definitions, child, before, depth + 1) <==>
                ValidCondition(h, items, child, before, depth + 1)
      {
        CheckConditionCorrect(h, items, positions, definitions, child, before, depth + 1);
      }
    case Compare(_, field, value) => CheckFieldCorrect(h, items, positions, definitions, before, field, [value]);
    case Member(field, values) => CheckFieldCorrect(h, items, positions, definitions, before, field, values);
    case Unsupported =>
  }

  method CheckWhen(h: Host, ghost items: seq<Item>, positions: map<string, nat>, definitions: map<string, Question>,
                   when: Option<Condition>, before: nat)
    returns (ok: bool)
    requires before <= |items| && Indexed(items, positions, definitions)
    ensures ok <==> ValidWhen(h, items, when, before)
  {
    if when.None? {
      return true;
    }
    CheckConditionCorrect(h, items, positions, definitions, when.value, before, 0);
    return CheckCondition(h, positions, definitions, when.value, before, 0);
  }

  /** The dictionaries after indexing these questions. */
  function Positions(items: seq<Item>): map<string, nat> {
    if items == [] then map[]
    else Positions(items[..|items| - 1])[items[|items| - 1].question.id := |items| - 1]
  }

  function Definitions(items: seq<Item>): map<string, Question> {
    if items == [] then map[]
    else Definitions(items[..|items| - 1])[items[|items| - 1].question.id := items[|items| - 1].question]
  }

  /** No question repeats an earlier one's id. */
  predicate Distinct(items: seq<Item>) {
    items != [] ==>
      items[|items| - 1].question.id !in Positions(items[..|items| - 1]) && Distinct(items[..|items| - 1])
  }

  lemma IndexedSnoc(items: seq<Item>, item: Item, positions: map<string, nat>, definitions: map<string, Question>)
    requires Indexed(items, positions, definitions) && item.question.id !in positions
    ensures Indexed(items + [item], positions[item.question.id := |items|],
                    definitions[item.question.id := item.question])
  {
  }

  lemma {:induction false} DistinctIsIndexed(items: seq<Item>)
    requires Distinct(items)
    ensures Indexed(items, Positions(items), Definitions(items))
    decreases |items|
  {
    if items != [] {
      var init, last := items[..|items| - 1], items[|items| - 1];
      DistinctIsIndexed(init);
      IndexedSnoc(init, last, Positions(init), Definitions(init));
      assert items == init + [last];
    }
  }

  lemma IndexedIsUnique(items: seq<Item>, positions: map<string, nat>, definitions: map<string, Question>)
    requires Indexed(items, positions, definitions)
    ensures UniqueIds(items)
  {
    forall i, j | 0 <= i < j < |items|
      ensures items[i].question.id != items[j].question.id
    {
      assert positions[items[i].question.id] == i && positions[items[j].question.id] == j;
    }
  }

  lemma {:induction false} UniqueIsDistinct(items: seq<Item>)
    requires UniqueIds(items)
    ensures Distinct(items)
    decreases |items|
  {
    if items != [] {
      var init := items[..|items| - 1];
      UniqueIsDistinct(init);
      DistinctIsIndexed(init);
      LastIsNew(init, items[|items| - 1], Positions(init), Definitions(init));
    }
  }

  lemma LastIsNew(init: seq<Item>, last: Item, positions: map<string, nat>, definitions: map<string, Question>)
    requires Indexed(init, positions, definitions) &&
             forall k :: 0 <= k < |init| ==> init[k].question.id != last.question.id
    ensures last.question.id !in positions
  {
    forall id | id in positions
      ensures id != last.question.id
    {
      assert init[positions[id]].question.id == id;
    }
  }

  lemma DistinctIsUnique(items: seq<Item>)
    ensures Distinct(items) <==> UniqueIds(items)
  {
    if Distinct(items) {
      DistinctIsIndexed(items);
      IndexedIsUnique(items, Positions(items), Definitions(items));
    }
    if UniqueIds(items) {
      UniqueIsDistinct(items);
    }
  }

  lemma IndexSnoc(items: seq<Item>, item: Item)
    ensures Positions(items + [item]) == Positions(items)[item.question.id := |items|]
    ensures Definitions(items + [item]) == Definitions(items)[item.question.id := item.question]
    ensures Distinct(items + [item]) <==> Distinct(items) && item.question.id !in Positions(items)
  {
    assert (items + [item])[..|items|] == items;
  }

  lemma {:induction false} DistinctPrefix(items: seq<Item>, more: seq<Item>)
    requires Distinct(items + more)
    ensures Distinct(items)
    decreases |more|
  {
    if more == [] {
      assert items + more == items;
    } else {
      var n := |more| - 1;
      assert items + more == items + more[..n] + [more[n]];
      IndexSnoc(items + more[..n], more[n]);
      DistinctPrefix(items, more[..n]);
    }
  }

  predicate ValidQuestions(h: Host, questions: seq<Question>) {
    questions != [] ==> ValidQuestions(h, questions[..|questions| - 1]) && ValidQuestion(h, questions[|questions| - 1])
  }

  lemma ValidQuestionsSnoc(h: Host, questions: seq<Question>, n: nat, valid: bool)
    requires n < |questions| && valid == ValidQuestion(h, questions[n])
    ensures ValidQuestions(h, questions[..n + 1]) <==> ValidQuestions(h, questions[..n]) && valid
  {
    assert questions[..n + 1][..n] == questions[..n];
  }

  lemma {:induction false} ValidQuestionsAll(h: Host, questions: seq<Question>, n: nat)
    requires n <= |questions|
    ensures ValidQuestions(h, questions[..n]) <==> forall i :: 0 <= i < n ==> ValidQuestion(h, questions[i])
    decreases n
  {
    if n > 0 {
      ValidQuestionsAll(h, questions, n - 1);
      ValidQuestionsSnoc(h, questions, n - 1, ValidQuestion(h, questions[n - 1]));
    }
  }

  lemma {:induction false} ValidQuestionsPrefix(h: Host, questions: seq<Question>, n: nat)
    requires n <= |questions| && ValidQuestions(h, questions)
    ensures ValidQuestions(h, questions[..n])
    decreases |questions| - n
  {
    if n < |questions| {
      ValidQuestionsPrefix(h, questions, n + 1);
      ValidQuestionsSnoc(h, questions, n, ValidQuestion(h, questions[n]));
    } else {
      assert questions[..n] == questions;
    }
  }

  lemma InvalidStops(h: Host, questions: seq<Question>, n: nat)
    requires n <= |questions| && !ValidQuestions(h, questions[..n])
    ensures !ValidQuestions(h, questions)
  {
    if ValidQuestions(h, questions) {
      ValidQuestionsPrefix(h, questions, n);
    }
  }

  lemma DuplicateStops(seen: seq<Item>, item: Item, more: seq<Item>)
    requires item.question.id in Positions(seen)
    ensures !Distinct(seen + [item] + more)
  {
    IndexSnoc(seen, item);
    if Distinct(seen + [item] + more) {
      DistinctPrefix(seen + [item], more);
    }
  }

  lemma AddedSplit(before: seq<Item>, added: seq<Item>, j: nat)
    requires j < |added|
    ensures before + added[..j + 1] == before + added[..j] + [added[j]]
    ensures before + added == before + added[..j] + [added[j]] + added[j + 1..]
  {
  }

  /** First pass over one section: its questions are valid, and their ids are new. */
  method IndexSection(h: Host, ghost before: seq<Item>, section: Section, positions: map<string, nat>,
                      definitions: map<string, Question>, position: nat)
    returns (ok: bool, positions': map<string, nat>, definitions': map<string, Question>, position': nat)
    requires position == |before| && Distinct(before)
    requires positions == Positions(before) && definitions == Definitions(before)
    ensures var after := before + SectionItems(section, |before|);
            && (ok <==> Distinct(after) && ValidQuestions(h, section.questions))
            && (ok ==> positions' == Positions(after) && definitions' == Definitions(after) && position' == |after|)
  {
    positions', definitions', position' := positions, definitions, position;
    ghost var added := SectionItems(section, |before|);
    ghost var seen := before;
    for j := 0 to |section.questions|
      invariant seen == before + added[..j] && Distinct(seen) && position' == |seen|
      invariant positions' == Positions(seen) && definitions' == Definitions(seen)
      invariant ValidQuestions(h, section.questions[..j])
    {
      var q := section.questions[j];
      AddedSplit(before, added, j);
      if q.id in positions' {
        DuplicateStops(seen, added[j], added[j + 1..]);
        ok := false;
        return;
      }
      IndexSnoc(seen, added[j]);
      positions' := positions'[q.id := position'];
      definitions' := definitions'[q.id := q];
      position' := position' + 1;
      seen := seen + [added[j]];
      ok := ValidQuestion(h, q);
      ValidQuestionsSnoc(h, section.questions, j, ok);
      if !ok {
        InvalidStops(h, section.questions, j + 1);
        return;
      }
    }
    assert added[..|section.questions|] == added && section.questions[..|section.questions|] == section.questions;
    ok := true;
  }

  /** The first pass of the validator over the sections before `n`. */
  predicate DeclaredUpTo(h: Host, schema: Schema, n: nat)
    requires n <= |schema|
  {
    && (forall s :: 0 <= s < n ==> IsIdentifier(schema[s].id) && schema[s].questions != [])
    && (forall i, j :: 0 <= i < j < n ==> schema[i].id != schema[j].id)
    && Distinct(Flat(schema[..n]))
    && (forall s :: 0 <= s < n ==> ValidQuestions(h, schema[s].questions))
  }

  lemma NotDeclared(h: Host, schema: Schema, s: nat)
    requires s < |schema|
    requires !Distinct(Flat(schema[..s + 1])) || !ValidQuestions(h, schema[s].questions)
    ensures !DeclaredUpTo(h, schema, |schema|)
  {
    assert schema[..|schema|] == schema;
    FlatPrefix(schema, s + 1);
    var items := Flat(schema);
    assert items == items[..Start(schema, s + 1)] + items[Start(schema, s + 1)..];
    if Distinct(items) {
      DistinctPrefix(items[..Start(schema, s + 1)], items[Start(schema, s + 1)..]);
    }
  }

  lemma DeclaredNext(h: Host, schema: Schema, s: nat)
    requires s < |schema| && DeclaredUpTo(h, schema, s)
    requires IsIdentifier(schema[s].id) && schema[s].questions != [] &&
             forall i :: 0 <= i < s ==> schema[i].id != schema[s].id
    requires Distinct(Flat(schema[..s + 1])) && ValidQuestions(h, schema[s].questions)
    ensures DeclaredUpTo(h, schema, s + 1)
  {
  }

  method IndexSections(h: Host, schema: Schema)
      returns (ok: bool, positions: map<string, nat>, definitions: map<string, Question>)
    ensures ok <==> DeclaredUpTo(h, schema, |schema|)
    ensures ok ==> positions == Positions(Flat(schema)) && definitions == Definitions(Flat(schema))
  {
    positions, definitions := map[], map[];
    var sectionIds: set<string> := {};
    var position := 0;
    for s := 0 to |schema|
      invariant DeclaredUpTo(h, schema, s) && position == Start(schema, s)
      invariant positions == Positions(Flat(schema[..s])) && definitions == Definitions(Flat(schema[..s]))
      invariant sectionIds == set i | 0 <= i < s :: schema[i].id
    {
      var section := schema[s];
      if !IsIdentifier(section.id) || section.id in sectionIds || section.questions == [] {
        ok := false;
        return;
      }
      sectionIds := sectionIds + {section.id};
      FlatSection(schema, s);
      ok, positions, definitions, position :=
          IndexSection(h, Flat(schema[..s]), section, positions, definitions, position);
      if !ok {
        NotDeclared(h, schema, s);
        return;
      }
      DeclaredNext(h, schema, s);
    }
    assert schema[..|schema|] == schema;
    ok := true;
  }

  /** The second pass over one section, whose first question is at `start`. */
  predicate ConditionsOf(h: Host, items: seq<Item>, section: Section, start: nat)
    requires start + |section.questions| <= |items|
  {
    && ValidWhen(h, items, section.visibleWhen, start)
    && forall j :: 0 <= j < |section.questions| ==> ValidWhen(h, items, section.questions[j].visibleWhen, start + j)
  }

  lemma StartsFit(schema: Schema, s: nat)
    requires s < |schema|
    ensures Start(schema, s) + |schema[s].questions| == Start(schema, s + 1) <= |Flat(schema)|
  {
    FlatNext(schema, s);
    FlatPrefix(schema, s + 1);
  }

  ghost predicate ConditionsAt(h: Host, schema: Schema, s: nat)
    requires s < |schema|
  {
    Start(schema, s) + |schema[s].questions| <= |Flat(schema)| &&
    ConditionsOf(h, Flat(schema), schema[s], Start(schema, s))
  }

  method CheckSection(h: Host, ghost items: seq<Item>, section: Section, positions: map<string, nat>,
                      definitions: map<string, Question>, start: nat)
    returns (ok: bool, position: nat)
    requires Indexed(items, positions, definitions) && start + |section.questions| <= |items|
    ensures ok <==> ConditionsOf(h, items, section, start)
    ensures ok ==> position == start + |section.questions|
  {
    position := start;
    ok := CheckWhen(h, items, positions, definitions, section.visibleWhen, position);
    if !ok {
      return;
    }
    for j := 0 to |section.questions|
      invariant position == start + j
      invariant forall i :: 0 <= i < j ==> ValidWhen(h, items, section.questions[i].visibleWhen, start + i)
    {
      ok := CheckWhen(h, items, positions, definitions, section.questions[j].visibleWhen, position);
      if !ok {
        return;
      }
      position := position + 1;
    }
    ok := true;
  }

  /** Second pass: every condition refers to earlier questions only. */
  method CheckSections(h: Host, schema: Schema, positions: map<string, nat>, definitions: map<string, Question>)
      returns (ok: bool)
    requires Indexed(Flat(schema), positions, definitions)
    ensures ok <==> forall s :: 0 <= s < |schema| ==> ConditionsAt(h, schema, s)
  {
    var position := 0;
    for s := 0 to |schema|
      invariant position == Start(schema, s)
      invariant forall i :: 0 <= i < s ==> ConditionsAt(h, schema, i)
    {
      StartsFit(schema, s);
      ok, position := CheckSection(h, Flat(schema), schema[s], positions, definitions, position);
      assert ConditionsAt(h, schema, s) <==> ok;
      if !ok {
        return;
      }
    }
    ok := true;
  }

  /** What the rules say of the question at position `k`. */
  predicate WellPlaced(h: Host, items: seq<Item>, k: nat)
    requires k < |items|
  {
    && items[k].start <= k
    && ValidQuestion(h, items[k].question)
    && ValidWhen(h, items, items[k].sectionWhen, items[k].start)
    && ValidWhen(h, items, items[k].question.visibleWhen, k)
  }

  lemma {:induction false} OrderedAt(h: Host, items: seq<Item>)
    ensures Ordered(h, items) <==> UniqueIds(items) && AllPlaced(h, items)
  {
    if Ordered(h, items) {
      forall k | 0 <= k < |items|
        ensures WellPlaced(h, items, k)
      {
        assert items[k].start <= k;
      }
    }
    if UniqueIds(items) && AllPlaced(h, items) {
      forall k | 0 <= k < |items|
        ensures items[k].start <= k && ValidQuestion(h, items[k].question)
        ensures ValidWhen(h, items, items[k].sectionWhen, items[k].start) &&
                ValidWhen(h, items, items[k].question.visibleWhen, k)
      {
        assert WellPlaced(h, items, k);
      }
    }
  }

  lemma {:induction false} PlacedBySection(h: Host, schema: Schema, s: nat, j: nat)
    requires s < |schema| && j < |schema[s].questions|
    ensures Start(schema, s) + j < Start(schema, s + 1) <= |Flat(schema)|
    ensures WellPlaced(h, Flat(schema), Start(schema, s) + j) <==>
            ValidQuestion(h, schema[s].questions[j])
            && ValidWhen(h, Flat(schema), schema[s].visibleWhen, Start(schema, s))
            && ValidWhen(h, Flat(schema), schema[s].questions[j].visibleWhen, Start(schema, s) + j)
  {
    FlatAt(schema, s, j);
  }

  lemma {:induction false} SectionPlaced(h: Host, schema: Schema, s: nat)
    requires s < |schema|
    requires forall k :: Start(schema, s) <= k < Start(schema, s + 1) && k < |Flat(schema)| ==>
             WellPlaced(h, Flat(schema), k)
    requires schema[s].questions != []
    ensures ConditionsAt(h, schema, s) && ValidQuestions(h, schema[s].questions)
  {
    StartsFit(schema, s);
    var questions := schema[s].questions;
    forall j | 0 <= j < |questions|
      ensures ValidQuestion(h, questions[j]) &&
              ValidWhen(h, Flat(schema), questions[j].visibleWhen, Start(schema, s) + j)
      ensures ValidWhen(h, Flat(schema), schema[s].visibleWhen, Start(schema, s))
    {
      PlacedBySection(h, schema, s, j);
    }
    assert questions[..|questions|] == questions;
    ValidQuestionsAll(h, questions, |questions|);
    PlacedBySection(h, schema, s, 0);
  }

  lemma {:induction false} QuestionPlaced(h: Host, schema: Schema, s: nat, j: nat)
    requires s < |schema| && j < |schema[s].questions|
    requires ConditionsAt(h, schema, s) && ValidQuestions(h, schema[s].questions)
    ensures Start(schema, s) + j < |Flat(schema)| && WellPlaced(h, Flat(schema), Start(schema, s) + j)
  {
    var questions := schema[s].questions;
    assert questions[..|questions|] == questions;
    ValidQuestionsAll(h, questions, |questions|);
    PlacedBySection(h, schema, s, j);
  }

  predicate AllPlaced(h: Host, items: seq<Item>) {
    forall k :: 0 <= k < |items| ==> WellPlaced(h, items, k)
  }

  ghost predicate AllChecked(h: Host, schema: Schema) {
    forall s :: 0 <= s < |schema| ==> ConditionsAt(h, schema, s) && ValidQuestions(h, schema[s].questions)
  }

  lemma {:induction false} CheckedIsPlaced(h: Host, schema: Schema)
    requires forall s :: 0 <= s < |schema| ==> schema[s].questions != []
    ensures AllChecked(h, schema) <==> AllPlaced(h, Flat(schema))
  {
    if AllChecked(h, schema) {
      forall k | 0 <= k < |Flat(schema)|
        ensures WellPlaced(h, Flat(schema), k)
      {
        var s, j := FlatOwner(schema, k);
        QuestionPlaced(h, schema, s, j);
      }
    }
    if AllPlaced(h, Flat(schema)) {
      forall s | 0 <= s < |schema|
        ensures ConditionsAt(h, schema, s) && ValidQuestions(h, schema[s].questions)
      {
        SectionPlaced(h, schema, s);
      }
    }
  }

  /** The two passes of the validator together check what the rules ask. */
  lemma {:induction false} AcceptedBySections(h: Host, schema: Schema, declared: bool, checked: bool)
    requires declared == DeclaredUpTo(h, schema, |schema|)
    requires checked == forall s :: 0 <= s < |schema| ==> ConditionsAt(h, schema, s)
    ensures Accepted(h, schema) <==> schema != [] && declared && checked
  {
    assert schema[..|schema|] == schema;
    DistinctIsUnique(Flat(schema));
    OrderedAt(h, Flat(schema));
    if forall s :: 0 <= s < |schema| ==> schema[s].questions != [] {
      CheckedIsPlaced(h, schema);
    }
  }

  method ValidateTemplateSchema(h: Host, schema: Schema) returns (ok: bool)
    ensures ok <==> Accepted(h, schema)
  {
    ok := schema != [];
    if !ok {
      return;
    }
    var positions, definitions;
    ok, positions, definitions := IndexSections(h, schema);
    if ok {
      assert Indexed(Flat(schema), positions, definitions) by {
        assert schema[..|schema|] == schema;
        DistinctIsIndexed(Flat(schema));
      }
      ok := CheckSections(h, schema, positions, definitions);
      AcceptedBySections(h, schema, true, ok);
    } else {
      AcceptedBySections(h, schema, false, forall s :: 0 <= s < |schema| ==> ConditionsAt(h, schema, s));
    }
  }
}
