/**
 * The where-filter builder of uiHelper.go: turns the argument object of a
 * `get_relevant_courses` tool call into the store filter
 * `{"$or": [clause, ...]}`, each clause a single-key equality.
 *
 * Ordinary members become clauses with their string values trimmed and blank
 * ones dropped; the two fuzzy members, InstructorFullName and TitleShortDesc,
 * are resolved to a canonical value by a k=1 nearest-neighbour query against
 * the instructors and subjects reference collections; a lone clause is padded
 * with a sentinel clause that matches no course.
 */
module WhereFilter {
  import opened Values
  import opened GoStrings

  const InstructorKey := "InstructorFullName"
  const TitleKey := "TitleShortDesc"
  const OrKey := "$or"

  /** A single-key equality `{key: value}`. */
  datatype Clause = Clause(key: string, value: JsonValue)

  /** The sentinel clause, a section used only to pad a lone clause. */
  const PadClause := Clause("Section", JString("999"))

  /** The filter handed to the store: a map whose key "$or" holds the clause list. */
  type Filter = map<string, seq<Clause>>

  datatype Collection = Instructors | Subjects

  /** One similarity query against a reference collection. */
  datatype Lookup = Lookup(collection: Collection, text: string, nResults: nat)

  /** What the store answers to a query: an error, or one list of documents per query text. */
  datatype StoreReply = StoreError(msg: string) | Documents(documents: seq<seq<string>>)

  /** A reference collection, seen as the answer it gives to a query text. */
  type Store = string -> StoreReply

  datatype FilterError =
    | MalformedArguments
    | InstructorLookupFailed(msg: string)
    | SubjectLookupFailed(msg: string)

  predicate IsFuzzyKey(key: string) {
    key == InstructorKey || key == TitleKey
  }

  /** The clause an ordinary member contributes, if any. */
  function OrdinaryClause(m: Member): Option<Clause> {
    if IsFuzzyKey(m.key) then None
    else if m.value.JString? then
      var trimmed := TrimSpace(m.value.s);
      if trimmed == "" then None else Some(Clause(m.key, JString(trimmed)))
    else Some(Clause(m.key, m.value))
  }

  /** The clauses of the ordinary members, in member order. */
  function OrdinaryClauses(o: seq<Member>): seq<Clause> {
    if o == [] then []
    else
      var init := OrdinaryClauses(o[..|o| - 1]);
      match OrdinaryClause(o[|o| - 1])
      case None => init
      case Some(c) => init + [c]
  }

  /** How many clauses of cs test key. */
  function CountKey(cs: seq<Clause>, key: string): nat {
    if cs == [] then 0
    else CountKey(cs[..|cs| - 1], key) + (if cs[|cs| - 1].key == key then 1 else 0)
  }

  /** The trimmed text of a fuzzy member, when it is a string that is not blank. */
  function FuzzyText(o: JsonObject, key: string): Option<string> {
    match Get(o, key)
    case Some(JString(s)) => if TrimSpace(s) == "" then None else Some(TrimSpace(s))
    case _ => None
  }

  /** The first document of the first result list, when there is one. */
  function NearestDocument(documents: seq<seq<string>>): Option<string> {
    if |documents| > 0 && |documents[0]| > 0 then Some(documents[0][0]) else None
  }

  /**
   * Canonicalising one fuzzy member: no text means no query and no clause; a
   * store error is passed on; a hit gives one clause holding the canonical text.
   */
  function Canonical(text: Option<string>, store: Store, key: string): Result<seq<Clause>, string> {
    match text
    case None => Ok([])
    case Some(t) =>
      match store(t)
      case StoreError(msg) => Err(msg)
      case Documents(docs) =>
        match NearestDocument(docs)
        case None => Ok([])
        case Some(d) => Ok([Clause(key, JString(d))])
  }

  /** The query canonicalising a fuzzy member sends, if any. */
  function LookupFor(collection: Collection, text: Option<string>): seq<Lookup> {
    match text
    case None => []
    case Some(t) => [Lookup(collection, t, 1)]
  }

  function Pad(cs: seq<Clause>): seq<Clause> {
    if |cs| == 1 then cs + [PadClause] else cs
  }

  /**
   * The filter the builder returns for a decoded argument object (None when
   * the arguments are not a JSON object).
   */
  function Build(decoded: Option<JsonObject>, instructors: Store, subjects: Store): (r: Result<Filter, FilterError>)
    ensures r == Err(MalformedArguments) <==> decoded.None?
    ensures r.Ok? ==> r.value.Keys == {OrKey} && |r.value[OrKey]| != 1
  {
    match decoded
    case None => Err(MalformedArguments)
    case Some(o) =>
      match Canonical(FuzzyText(o, InstructorKey), instructors, InstructorKey)
      case Err(msg) => Err(InstructorLookupFailed(msg))
      case Ok(instructorClause) =>
        match Canonical(FuzzyText(o, TitleKey), subjects, TitleKey)
        case Err(msg) => Err(SubjectLookupFailed(msg))
        case Ok(titleClause) => Ok(map[OrKey := Pad(OrdinaryClauses(o) + instructorClause + titleClause)])
  }

  /** The reference-collection queries the builder sends, in order. */
  function Lookups(decoded: Option<JsonObject>, instructors: Store): seq<Lookup> {
    match decoded
    case None => []
    case Some(o) =>
      var first := LookupFor(Instructors, FuzzyText(o, InstructorKey));
      if Canonical(FuzzyText(o, InstructorKey), instructors, InstructorKey).Err? then first
      else first + LookupFor(Subjects, FuzzyText(o, TitleKey))
  }

  /**
   * Resolves the fuzzy member `key` of data through `store`: the comma-ok
   * lookup, the string assertion, the trim, the k=1 query and the hit test.
   */
  method Canonicalize(data: JsonObject, key: string, collection: Collection, store: Store)
    returns (r: Result<seq<Clause>, string>, lookups: seq<Lookup>)
    ensures r == Canonical(FuzzyText(data, key), store, key)
    ensures lookups == LookupFor(collection, FuzzyText(data, key))
  {
    r, lookups := Ok([]), [];
    var value := Get(data, key);
    if value.Some? && value.value.JString? {
      var trimmed := TrimSpace(value.value.s);
      if trimmed != "" {
        lookups := [Lookup(collection, trimmed, 1)];
        var reply := store(trimmed);
        if reply.StoreError? {
          r := Err(reply.msg);
          return;
        }
        if |reply.documents| > 0 && |reply.documents[0]| > 0 {
          r := Ok([Clause(key, JString(reply.documents[0][0]))]);
        }
      }
    }
  }

  /**
   * BuildWhereFilterFromJSONString. `decoded` is the outcome of unmarshalling
   * the argument text; `lookups` records the reference-collection queries sent.
   */
  method BuildWhereFilter(decoded: Option<JsonObject>, instructors: Store, subjects: Store)
    returns (r: Result<Filter, FilterError>, lookups: seq<Lookup>)
    ensures r == Build(decoded, instructors, subjects)
    ensures lookups == Lookups(decoded, instructors)
  {
    if decoded.None? {
      return Err(MalformedArguments), [];
    }
    var data := decoded.value;
    var orConditions: seq<Clause> := [];
    var i := 0;
    while i < |data|
      invariant 0 <= i <= |data|
      invariant orConditions == OrdinaryClauses(data[..i])
    {
      var key, value := data[i].key, data[i].value;
      assert data[..i + 1][..i] == data[..i];
      if key != InstructorKey && key != TitleKey {
        if value.JString? {
          var trimmed := TrimSpace(value.s);
          if trimmed != "" {
            orConditions := orConditions + [Clause(key, JString(trimmed))];
          }
        } else {
          orConditions := orConditions + [Clause(key, value)];
        }
      }
      i := i + 1;
    }
    assert data[..i] == data;

    var instructor, instructorLookups := Canonicalize(data, InstructorKey, Instructors, instructors);
    lookups := instructorLookups;
    if instructor.Err? {
      return Err(InstructorLookupFailed(instructor.error)), lookups;
    }
    orConditions := orConditions + instructor.value;

    var title, titleLookups := Canonicalize(data, TitleKey, Subjects, subjects);
    lookups := lookups + titleLookups;
    if title.Err? {
      return Err(SubjectLookupFailed(title.error)), lookups;
    }
    orConditions := orConditions + title.value;

    if |orConditions| == 1 {
      orConditions := orConditions + [PadClause];
    }
    r := Ok(map[OrKey := orConditions]);
  }

  // ---------------------------------------------------------------------------
  // Properties of the builder

  lemma {:induction false} CountKeyAppend(a: seq<Clause>, b: seq<Clause>, key: string)
    ensures CountKey(a + b, key) == CountKey(a, key) + CountKey(b, key)
    decreases |b|
  {
    if b == [] {
      assert a + b == a;
    } else {
      var b' := b[..|b| - 1];
      assert (a + b)[..|a + b| - 1] == a + b';
      CountKeyAppend(a, b', key);
    }
  }

  /** Member order is clause order: the clauses of a + b are those of a, then those of b. */
  lemma {:induction false} OrdinaryClausesAppend(a: seq<Member>, b: seq<Member>)
    ensures OrdinaryClauses(a + b) == OrdinaryClauses(a) + OrdinaryClauses(b)
    decreases |b|
  {
    if b == [] {
      assert a + b == a;
    } else {
      var b' := b[..|b| - 1];
      assert (a + b)[..|a + b| - 1] == a + b';
      OrdinaryClausesAppend(a, b');
    }
  }

  /**
   * Every ordinary clause comes from a member with the same, non-fuzzy key,
   * and holds that member's value, trimmed when it is a string.
   */
  lemma {:induction false} OrdinaryClausesFromMembers(o: seq<Member>)
    ensures forall c :: c in OrdinaryClauses(o) ==>
              && !IsFuzzyKey(c.key)
              && exists i :: 0 <= i < |o| && o[i].key == c.key &&
                   (if o[i].value.JString? then c.value == JString(TrimSpace(o[i].value.s)) && !AllSpace(o[i].value.s)
                    else c.value == o[i].value)
  {
    if o != [] {
      var init := o[..|o| - 1];
      OrdinaryClausesFromMembers(init);
      forall c | c in OrdinaryClauses(o)
        ensures !IsFuzzyKey(c.key)
        ensures exists i :: 0 <= i < |o| && o[i].key == c.key &&
                  (if o[i].value.JString? then c.value == JString(TrimSpace(o[i].value.s)) && !AllSpace(o[i].value.s)
                   else c.value == o[i].value)
      {
        if c in OrdinaryClauses(init) {
          var i :| 0 <= i < |init| && init[i].key == c.key &&
                   (if init[i].value.JString? then c.value == JString(TrimSpace(init[i].value.s)) && !AllSpace(init[i].value.s)
                    else c.value == init[i].value);
          assert o[i] == init[i];
        } else {
          assert OrdinaryClause(o[|o| - 1]) == Some(c);
        }
      }
    }
  }

  /** A fuzzy key, or a key no member has, gets no ordinary clause. */
  lemma {:induction false} NoOrdinaryClauseFor(o: seq<Member>, key: string)
    requires IsFuzzyKey(key) || forall i :: 0 <= i < |o| ==> o[i].key != key
    ensures CountKey(OrdinaryClauses(o), key) == 0
  {
    if o != [] {
      var init := o[..|o| - 1];
      NoOrdinaryClauseFor(init, key);
      CountKeyAppend(OrdinaryClauses(init), [], key);
      match OrdinaryClause(o[|o| - 1])
      case None =>
      case Some(c) =>
        CountKeyAppend(OrdinaryClauses(init), [c], key);
        assert [c][..0] == [];
    }
  }

  lemma CountKeySnoc(cs: seq<Clause>, c: Clause, key: string)
    ensures CountKey(cs + [c], key) == CountKey(cs, key) + (if c.key == key then 1 else 0)
  {
    assert (cs + [c])[..|cs|] == cs;
  }

  /**
   * Each ordinary member with a string value gives exactly one clause, holding
   * the trimmed value, when the trimmed value is not empty, and none when it
   * is; a member with any other value gives exactly one clause holding that
   * value unchanged.
   */
  lemma OrdinaryClauseOfMember(o: JsonObject, i: nat)
    requires i < |o| && !IsFuzzyKey(o[i].key)
    ensures var cs, k, v := OrdinaryClauses(o), o[i].key, o[i].value;
      && (v.JString? ==> ((CountKey(cs, k) == 1 <==> TrimSpace(v.s) != "")
                         && (CountKey(cs, k) == 0 <==> TrimSpace(v.s) == "")))
      && (v.JString? && TrimSpace(v.s) != "" ==> Clause(k, JString(TrimSpace(v.s))) in cs)
      && (!v.JString? ==> CountKey(cs, k) == 1 && Clause(k, v) in cs)
  {
    MemberClauseInPlace(o, i);
  }

  /** Member i's clause is counted once in the clauses of o, and is one of them. */
  lemma MemberClauseInPlace(o: JsonObject, i: nat)
    requires i < |o|
    ensures CountKey(OrdinaryClauses(o), o[i].key) == if OrdinaryClause(o[i]).Some? then 1 else 0
    ensures OrdinaryClause(o[i]).Some? ==> OrdinaryClause(o[i]).value in OrdinaryClauses(o)
  {
    var k := o[i].key;
    var before, own, after := OrdinaryClauses(o[..i]), OrdinaryClauses([o[i]]), OrdinaryClauses(o[i + 1..]);
    ClausesAround(o, i);
    OthersDiffer(o, i);
    SingleMemberClauses(o[i]);
    CountBetween(before, own, after, k);
    if OrdinaryClause(o[i]).Some? {
      assert OrdinaryClause(o[i]).value in own;
    }
  }

  /** Between two parts without clauses on k, the clauses on k are those of the middle part. */
  lemma CountBetween(before: seq<Clause>, own: seq<Clause>, after: seq<Clause>, k: string)
    requires CountKey(before, k) == 0 && CountKey(after, k) == 0
    ensures CountKey(before + own + after, k) == CountKey(own, k)
    ensures forall c :: c in own ==> c in before + own + after
  {
    CountKeyAppend(before, own, k);
    CountKeyAppend(before + own, after, k);
  }

  /** The clauses of o are those before member i, then member i's own, then those after. */
  lemma ClausesAround(o: seq<Member>, i: nat)
    requires i < |o|
    ensures OrdinaryClauses(o) == OrdinaryClauses(o[..i]) + OrdinaryClauses([o[i]]) + OrdinaryClauses(o[i + 1..])
  {
    SplitAt(o, i);
    OrdinaryClausesAppend(o[..i] + [o[i]], o[i + 1..]);
    OrdinaryClausesAppend(o[..i], [o[i]]);
  }

  /** With distinct keys, no member before or after member i has a clause on its key. */
  lemma OthersDiffer(o: JsonObject, i: nat)
    requires i < |o|
    ensures CountKey(OrdinaryClauses(o[..i]), o[i].key) == 0
    ensures CountKey(OrdinaryClauses(o[i + 1..]), o[i].key) == 0
  {
    var pre, post := o[..i], o[i + 1..];
    forall j | 0 <= j < |post| ensures post[j].key != o[i].key {
      assert post[j] == o[i + 1 + j];
    }
    NoOrdinaryClauseFor(pre, o[i].key);
    NoOrdinaryClauseFor(post, o[i].key);
  }

  /** A lone member's clauses: its own clause, if any, counted once under its key. */
  lemma SingleMemberClauses(m: Member)
    ensures OrdinaryClauses([m]) == if OrdinaryClause(m).Some? then [OrdinaryClause(m).value] else []
    ensures CountKey(OrdinaryClauses([m]), m.key) == if OrdinaryClause(m).Some? then 1 else 0
  {
    assert [m][..0] == [];
    if OrdinaryClause(m).Some? {
      assert [OrdinaryClause(m).value][..0] == [];
    }
  }

  lemma SplitAt(o: seq<Member>, i: nat)
    requires i < |o|
    ensures o == o[..i] + [o[i]] + o[i + 1..]
  {
  }

  /** The fixed padding clause never tests a fuzzy key. */
  lemma PadPreservesFuzzyCounts(cs: seq<Clause>, key: string)
    requires IsFuzzyKey(key)
    ensures CountKey(Pad(cs), key) == CountKey(cs, key)
  {
    if |cs| == 1 {
      CountKeyAppend(cs, [PadClause], key);
      assert [PadClause][..0] == [];
    }
  }

  /**
   * A blank or non-string InstructorFullName sends no instructors query.
   * Otherwise its trimmed text is the first query sent, with k = 1, and a
   * store error aborts the build with no filter and no further query.
   */
  lemma InstructorLookup(o: JsonObject, instructors: Store, subjects: Store)
    ensures var r, ls, t := Build(Some(o), instructors, subjects), Lookups(Some(o), instructors), FuzzyText(o, InstructorKey);
      && (t.None? ==> forall l :: l in ls ==> l.collection != Instructors)
      && (t.Some? ==> |ls| >= 1 && ls[0] == Lookup(Instructors, t.value, 1))
      && (t.Some? && instructors(t.value).StoreError? ==>
            r == Err(InstructorLookupFailed(instructors(t.value).msg)) && |ls| == 1)
  {
    var t := FuzzyText(o, InstructorKey);
    var second := LookupFor(Subjects, FuzzyText(o, TitleKey));
    assert forall l :: l in second ==> l.collection == Subjects;
    match t
    case None =>
      assert LookupFor(Instructors, t) == [];
    case Some(text) =>
      assert LookupFor(Instructors, t) == [Lookup(Instructors, text, 1)];
      if instructors(text).StoreError? {
        assert Canonical(t, instructors, InstructorKey) == Err(instructors(text).msg);
      }
  }

  /**
   * In a built filter a blank or non-string InstructorFullName gives no
   * instructor clause; a hit gives exactly one clause holding the canonical
   * name; no hit gives none.
   */
  lemma InstructorResolution(o: JsonObject, instructors: Store, subjects: Store)
    requires Build(Some(o), instructors, subjects).Ok?
    ensures var cs, t := Build(Some(o), instructors, subjects).value[OrKey], FuzzyText(o, InstructorKey);
      && (t.None? ==> CountKey(cs, InstructorKey) == 0)
      && (t.Some? ==> (instructors(t.value).Documents? &&
            match NearestDocument(instructors(t.value).documents)
            case None => CountKey(cs, InstructorKey) == 0
            case Some(name) => CountKey(cs, InstructorKey) == 1 && Clause(InstructorKey, JString(name)) in cs))
  {
    var ic := Canonical(FuzzyText(o, InstructorKey), instructors, InstructorKey);
    var tc := Canonical(FuzzyText(o, TitleKey), subjects, TitleKey);
    BuiltClauses(o, instructors, subjects);
    var cs := OrdinaryClauses(o) + ic.value + tc.value;
    FuzzyCount(o, ic.value, tc.value, InstructorKey);
    CountKeyOfCanonical(FuzzyText(o, InstructorKey), instructors, InstructorKey, InstructorKey);
    CountKeyOfCanonical(FuzzyText(o, TitleKey), subjects, TitleKey, InstructorKey);
    if ic.value != [] {
      assert ic.value[0] in cs;
      assert cs <= Pad(cs);
    }
  }

  /**
   * The same for TitleShortDesc and the subjects collection, whose query is
   * sent last and only once the instructor part has not failed: a blank or
   * non-string title sends no subjects query; otherwise its trimmed text is
   * sent, and a store error aborts the build with no filter.
   */
  lemma SubjectLookup(o: JsonObject, instructors: Store, subjects: Store)
    ensures var r, ls, t := Build(Some(o), instructors, subjects), Lookups(Some(o), instructors), FuzzyText(o, TitleKey);
      var instructorOk := Canonical(FuzzyText(o, InstructorKey), instructors, InstructorKey).Ok?;
      && (t.None? ==> forall l :: l in ls ==> l.collection != Subjects)
      && (t.Some? && instructorOk ==> ls[|ls| - 1] == Lookup(Subjects, t.value, 1))
      && (t.Some? && instructorOk && subjects(t.value).StoreError? ==>
            r == Err(SubjectLookupFailed(subjects(t.value).msg)))
  {
    var first := LookupFor(Instructors, FuzzyText(o, InstructorKey));
    assert forall l :: l in first ==> l.collection == Instructors;
  }

  /**
   * In a built filter a blank or non-string title gives no title clause; a
   * hit gives exactly one clause holding the canonical title; no hit gives none.
   */
  lemma SubjectResolution(o: JsonObject, instructors: Store, subjects: Store)
    requires Build(Some(o), instructors, subjects).Ok?
    ensures var cs, t := Build(Some(o), instructors, subjects).value[OrKey], FuzzyText(o, TitleKey);
      && (t.None? ==> CountKey(cs, TitleKey) == 0)
      && (t.Some? ==> (subjects(t.value).Documents? &&
            match NearestDocument(subjects(t.value).documents)
            case None => CountKey(cs, TitleKey) == 0
            case Some(title) => CountKey(cs, TitleKey) == 1 && Clause(TitleKey, JString(title)) in cs))
  {
    var ic := Canonical(FuzzyText(o, InstructorKey), instructors, InstructorKey);
    var tc := Canonical(FuzzyText(o, TitleKey), subjects, TitleKey);
    BuiltClauses(o, instructors, subjects);
    var cs := OrdinaryClauses(o) + ic.value + tc.value;
    FuzzyCount(o, ic.value, tc.value, TitleKey);
    CountKeyOfCanonical(FuzzyText(o, InstructorKey), instructors, InstructorKey, TitleKey);
    CountKeyOfCanonical(FuzzyText(o, TitleKey), subjects, TitleKey, TitleKey);
    if tc.value != [] {
      assert tc.value[0] in cs;
      assert cs <= Pad(cs);
    }
  }

  /** The fuzzy clauses are the only ones that can test a fuzzy key. */
  lemma FuzzyCount(o: JsonObject, ic: seq<Clause>, tc: seq<Clause>, key: string)
    requires IsFuzzyKey(key)
    ensures CountKey(Pad(OrdinaryClauses(o) + ic + tc), key) == CountKey(ic, key) + CountKey(tc, key)
  {
    NoOrdinaryClauseFor(o, key);
    CountKeyAppend(OrdinaryClauses(o) + ic, tc, key);
    CountKeyAppend(OrdinaryClauses(o), ic, key);
    PadPreservesFuzzyCounts(OrdinaryClauses(o) + ic + tc, key);
  }

  lemma CountKeyOfCanonical(text: Option<string>, store: Store, key: string, probe: string)
    requires Canonical(text, store, key).Ok?
    ensures var cs := Canonical(text, store, key).value;
      && |cs| <= 1
      && (forall c :: c in cs ==> c.key == key)
      && CountKey(cs, probe) == (if cs != [] && key == probe then 1 else 0)
  {
    var cs := Canonical(text, store, key).value;
    if cs != [] {
      assert cs[..0] == [];
    }
  }

  /** The layout claims of ClauseLayout, for any three parts with the right keys. */
  lemma PaddedLayout(ord: seq<Clause>, ic: seq<Clause>, tc: seq<Clause>)
    requires forall c :: c in ord ==> !IsFuzzyKey(c.key)
    requires |ic| <= 1 && forall c :: c in ic ==> c.key == InstructorKey
    requires |tc| <= 1 && forall c :: c in tc ==> c.key == TitleKey
    ensures var cs, n := Pad(ord + ic + tc), |ord| + |ic| + |tc|;
      && |cs| == (if n == 1 then 2 else n)
      && cs[..|ord|] == ord
      && (forall j :: |ord| <= j < |cs| ==> IsFuzzyKey(cs[j].key) || cs[j] == PadClause)
      && (forall j :: 0 <= j < |ord| ==> !IsFuzzyKey(cs[j].key))
      && (forall i, j :: 0 <= i < |cs| && 0 <= j < |cs| && cs[i].key == InstructorKey && cs[j].key == TitleKey ==> i < j)
  {
    var cs := Pad(ord + ic + tc);
    var n := |ord| + |ic| + |tc|;
    forall j | 0 <= j < |ord| ensures !IsFuzzyKey(cs[j].key) {
      assert cs[j] == ord[j];
    }
    forall j | |ord| <= j < |ord| + |ic| ensures cs[j].key == InstructorKey {
      assert cs[j] == ic[j - |ord|];
    }
    forall j | |ord| + |ic| <= j < n ensures cs[j].key == TitleKey {
      assert cs[j] == tc[j - |ord| - |ic|];
    }
    assert forall j :: n <= j < |cs| ==> cs[j] == PadClause;
  }

  /**
   * Clause layout of a built filter: the ordinary clauses first, in member
   * order; then at most one instructor clause; then at most one title clause;
   * then the padding clause, present exactly when the other clauses number
   * one. So no clause with a fuzzy key precedes an ordinary one, and an
   * instructor clause precedes a title clause.
   */
  lemma ClauseLayout(o: JsonObject, instructors: Store, subjects: Store)
    requires Build(Some(o), instructors, subjects).Ok?
    ensures var cs, ord := Build(Some(o), instructors, subjects).value[OrKey], OrdinaryClauses(o);
      var fuzzy := |Canonical(FuzzyText(o, InstructorKey), instructors, InstructorKey).value|
                 + |Canonical(FuzzyText(o, TitleKey), subjects, TitleKey).value|;
      && fuzzy <= 2
      && |cs| == (if |ord| + fuzzy == 1 then 2 else |ord| + fuzzy)
      && cs[..|ord|] == ord
      && (forall j :: |ord| <= j < |cs| ==> IsFuzzyKey(cs[j].key) || cs[j] == PadClause)
      && (forall j :: 0 <= j < |ord| ==> !IsFuzzyKey(cs[j].key))
      && (forall i, j :: 0 <= i < |cs| && 0 <= j < |cs| && cs[i].key == InstructorKey && cs[j].key == TitleKey ==> i < j)
  {
    BuiltClauses(o, instructors, subjects);
    var ic := Canonical(FuzzyText(o, InstructorKey), instructors, InstructorKey).value;
    var tc := Canonical(FuzzyText(o, TitleKey), subjects, TitleKey).value;
    CanonicalShape(FuzzyText(o, InstructorKey), instructors, InstructorKey);
    CanonicalShape(FuzzyText(o, TitleKey), subjects, TitleKey);
    OrdinaryKeysNotFuzzy(o);
    PaddedLayout(OrdinaryClauses(o), ic, tc);
  }

  /** A canonical lookup gives at most one clause, on its own key. */
  lemma CanonicalShape(text: Option<string>, store: Store, key: string)
    requires Canonical(text, store, key).Ok?
    ensures |Canonical(text, store, key).value| <= 1
    ensures forall c :: c in Canonical(text, store, key).value ==> c.key == key
  {
  }

  /** No ordinary clause tests a fuzzy key. */
  lemma {:induction false} OrdinaryKeysNotFuzzy(o: seq<Member>)
    ensures forall c :: c in OrdinaryClauses(o) ==> !IsFuzzyKey(c.key)
  {
    if o != [] {
      OrdinaryKeysNotFuzzy(o[..|o| - 1]);
    }
  }

  /** A successful build holds the padded ordinary, instructor and title clauses. */
  lemma BuiltClauses(o: JsonObject, instructors: Store, subjects: Store)
    requires Build(Some(o), instructors, subjects).Ok?
    ensures Canonical(FuzzyText(o, InstructorKey), instructors, InstructorKey).Ok?
    ensures Canonical(FuzzyText(o, TitleKey), subjects, TitleKey).Ok?
    ensures Build(Some(o), instructors, subjects).value[OrKey]
         == Pad(OrdinaryClauses(o) + Canonical(FuzzyText(o, InstructorKey), instructors, InstructorKey).value
                                   + Canonical(FuzzyText(o, TitleKey), subjects, TitleKey).value)
  {
  }

  // ---------------------------------------------------------------------------
  // Worked examples

  /**
   * Without an InstructorFullName or TitleShortDesc member the builder sends
   * no reference query and the filter holds the padded ordinary clauses.
   */
  lemma NoFuzzyMembers(o: JsonObject, instructors: Store, subjects: Store)
    requires forall i :: 0 <= i < |o| ==> !IsFuzzyKey(o[i].key)
    ensures Build(Some(o), instructors, subjects) == Ok(map[OrKey := Pad(OrdinaryClauses(o))])
    ensures Lookups(Some(o), instructors) == []
  {
    assert Get(o, InstructorKey).None? && Get(o, TitleKey).None?;
    assert OrdinaryClauses(o) + [] + [] == OrdinaryClauses(o);
  }

  /** An ordinary member whose value, if a string, is already trimmed and not blank. */
  predicate PlainMember(m: Member) {
    !IsFuzzyKey(m.key) && (m.value.JString? ==> m.value.s != "" && TrimSpace(m.value.s) == m.value.s)
  }

  /** Plain members give one clause each, holding the member unchanged, in member order. */
  lemma {:induction false} PlainClauses(o: seq<Member>)
    requires forall i :: 0 <= i < |o| ==> PlainMember(o[i])
    ensures |OrdinaryClauses(o)| == |o|
    ensures forall i :: 0 <= i < |o| ==> OrdinaryClauses(o)[i] == Clause(o[i].key, o[i].value)
  {
    if o != [] {
      PlainClauses(o[..|o| - 1]);
      assert OrdinaryClause(o[|o| - 1]) == Some(Clause(o[|o| - 1].key, o[|o| - 1].value));
    }
  }

  /** Two usable ordinary members give two clauses and no padding. */
  lemma TwoFieldsNoPadding(o: JsonObject, instructors: Store, subjects: Store)
    requires o == [Member("Subject", JString("CS")), Member("CourseNumber", JString("272"))]
    ensures Build(Some(o), instructors, subjects)
         == Ok(map[OrKey := [Clause("Subject", JString("CS")), Clause("CourseNumber", JString("272"))]])
  {
    TrimSpaceOfPlain("CS");
    TrimSpaceOfPlain("272");
    assert PlainMember(o[0]) && PlainMember(o[1]);
    PlainClauses(o);
    NoFuzzyMembers(o, instructors, subjects);
    var cs := OrdinaryClauses(o);
    assert cs == [Clause("Subject", JString("CS")), Clause("CourseNumber", JString("272"))];
    assert Pad(cs) == cs;
  }

  /**
   * A lone fuzzy title resolved by the subjects collection gives its canonical
   * clause followed by the padding clause.
   */
  lemma LoneTitleIsPadded(instructors: Store, subjects: Store)
    requires subjects("skating") == Documents([["Software Development"]])
    ensures Build(Some([Member(TitleKey, JString("skating"))]), instructors, subjects)
         == Ok(map[OrKey := [Clause(TitleKey, JString("Software Development")), PadClause]])
  {
    var o := [Member(TitleKey, JString("skating"))];
    TrimSpaceOfPlain("skating");
    assert o[..0] == [];
    assert OrdinaryClauses(o) == [];
    assert Get(o, InstructorKey).None?;
    assert FuzzyText(o, TitleKey) == Some("skating");
    assert Canonical(FuzzyText(o, InstructorKey), instructors, InstructorKey) == Ok([]);
    assert Canonical(FuzzyText(o, TitleKey), subjects, TitleKey) == Ok([Clause(TitleKey, JString("Software Development"))]);
    var cs := OrdinaryClauses(o) + [] + [Clause(TitleKey, JString("Software Development"))];
    assert cs == [Clause(TitleKey, JString("Software Development"))];
    assert Pad(cs) == [Clause(TitleKey, JString("Software Development")), PadClause];
  }

  /** A string that neither starts nor ends with white space trims to itself. */
  lemma TrimSpaceOfPlain(s: string)
    requires s != [] && !IsSpace(s[0]) && !IsSpace(s[|s| - 1])
    ensures TrimSpace(s) == s
  {
    assert TrimLeft(s) == s;
    assert TrimRight(s) == s;
  }
}
