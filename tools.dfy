/**
 * The two other helpers of uiHelper.go that tool calls reach: queryDB, which
 * queries the courses collection with a built filter and projects the hits
 * into one block of text, and emailProfessor, which validates the arguments of
 * an `email_instructor` call and picks the command that opens a mail draft.
 */
module ToolHelpers {
  import opened Values
  import opened GoStrings
  import opened WhereFilter

  /** A decoded course document. The encoder sorts keys, so a map suffices. */
  type Document = map<string, JsonValue>

  /** The embedding field stripped from every retrieved document. */
  const VectorKey := "vector"

  /** Query text and result bound of every course query. */
  const CourseQueryText := "."
  const CourseResultLimit := 50

  /** The query queryDB sends to the courses collection. */
  datatype CourseQuery = CourseQuery(texts: seq<string>, nResults: nat, where: Filter)

  /** The store's answer: an error, or one list of documents per query text. */
  datatype QueryReply = QueryError(msg: string) | Hits(documents: seq<seq<string>>)

  /** All hit lists, outer list first, each inner list in its own order. */
  function Flatten(hits: seq<seq<string>>): seq<string> {
    if hits == [] then [] else Flatten(hits[..|hits| - 1]) + hits[|hits| - 1]
  }

  /** The documents of raw that decode, in order, each without its vector field. */
  function Projected(raw: seq<string>, decode: string -> Option<Document>): seq<Document> {
    if raw == [] then []
    else
      var init := Projected(raw[..|raw| - 1], decode);
      match decode(raw[|raw| - 1])
      case None => init
      case Some(doc) => init + [doc - {VectorKey}]
  }

  function Encoded(docs: seq<Document>, encode: Document -> string): seq<string> {
    seq(|docs|, i requires 0 <= i < |docs| => encode(docs[i]))
  }

  /** The text queryDB returns for a store reply. */
  function QueryText(reply: QueryReply, decode: string -> Option<Document>, encode: Document -> string): string {
    match reply
    case QueryError(_) => ""
    case Hits(hits) => Join(Encoded(Projected(Flatten(hits), decode), encode), "\n")
  }

  /**
   * queryDB: one query with text "." and at most 50 results under the filter;
   * a store error gives the empty text; otherwise every retrieved document
   * that decodes is re-encoded without its vector field, and the results are
   * joined by newlines.
   */
  method QueryDb(courses: CourseQuery -> QueryReply, filter: Filter,
                 decode: string -> Option<Document>, encode: Document -> string)
    returns (text: string, sent: CourseQuery)
    ensures sent == CourseQuery([CourseQueryText], CourseResultLimit, filter)
    ensures text == QueryText(courses(sent), decode, encode)
  {
    sent := CourseQuery([CourseQueryText], CourseResultLimit, filter);
    var results := courses(sent);
    if results.QueryError? {
      return "", sent;
    }
    var hits := results.documents;
    var matchingCourses: seq<string> := [];
    var i := 0;
    while i < |hits|
      invariant 0 <= i <= |hits|
      invariant matchingCourses == Encoded(Projected(Flatten(hits[..i]), decode), encode)
    {
      matchingCourses := ProjectHitList(matchingCourses, Flatten(hits[..i]), hits[i], decode, encode);
      assert hits[..i + 1][..i] == hits[..i];
      i := i + 1;
    }
    assert hits[..i] == hits;
    text := Join(matchingCourses, "\n");
  }

  /**
   * The inner loop of queryDB over one hit list: each document that decodes
   * is appended, re-encoded without its vector field, to what the earlier
   * lists gave.
   */
  method ProjectHitList(matching: seq<string>, ghost before: seq<string>, doc: seq<string>,
                        decode: string -> Option<Document>, encode: Document -> string)
    returns (result: seq<string>)
    requires matching == Encoded(Projected(before, decode), encode)
    ensures result == Encoded(Projected(before + doc, decode), encode)
  {
    result := matching;
    var j := 0;
    assert before + doc[..0] == before;
    while j < |doc|
      invariant 0 <= j <= |doc|
      invariant result == Encoded(Projected(before + doc[..j], decode), encode)
    {
      assert before + doc[..j + 1] == (before + doc[..j]) + [doc[j]];
      ProjectedSnoc(before + doc[..j], doc[j], decode, encode);
      var retrievedCourse := decode(doc[j]);
      if retrievedCourse.Some? {
        var kept := retrievedCourse.value - {VectorKey};
        result := result + [encode(kept)];
      }
      j := j + 1;
    }
    assert doc[..j] == doc;
  }

  /** One more retrieved document adds its projection, if it decodes. */
  lemma ProjectedSnoc(raw: seq<string>, x: string, decode: string -> Option<Document>, encode: Document -> string)
    ensures Encoded(Projected(raw + [x], decode), encode) ==
              Encoded(Projected(raw, decode), encode)
              + (if decode(x).Some? then [encode(decode(x).value - {VectorKey})] else [])
  {
    assert (raw + [x])[..|raw|] == raw;
  }

  // ---------------------------------------------------------------------------
  // Properties of the projection

  lemma {:induction false} FlattenAppend(a: seq<seq<string>>, b: seq<seq<string>>)
    ensures Flatten(a + b) == Flatten(a) + Flatten(b)
    decreases |b|
  {
    if b == [] {
      assert a + b == a;
    } else {
      var b' := b[..|b| - 1];
      assert (a + b)[..|a + b| - 1] == a + b';
      FlattenAppend(a, b');
    }
  }

  /**
   * Outer-then-inner order: the j-th document of the i-th hit list sits in the
   * flattened list right after everything from the lists before it.
   */
  lemma FlattenAt(hits: seq<seq<string>>, i: nat, j: nat)
    requires i < |hits| && j < |hits[i]|
    ensures |Flatten(hits[..i])| + j < |Flatten(hits)|
    ensures Flatten(hits)[|Flatten(hits[..i])| + j] == hits[i][j]
  {
    assert hits == hits[..i] + [hits[i]] + hits[i + 1..];
    FlattenAppend(hits[..i] + [hits[i]], hits[i + 1..]);
    FlattenAppend(hits[..i], [hits[i]]);
    assert Flatten([hits[i]]) == hits[i] by {
      assert [hits[i]][..0] == [];
    }
  }

  /** Projection keeps the order of the documents it keeps. */
  lemma {:induction false} ProjectedAppend(a: seq<string>, b: seq<string>, decode: string -> Option<Document>)
    ensures Projected(a + b, decode) == Projected(a, decode) + Projected(b, decode)
    decreases |b|
  {
    if b == [] {
      assert a + b == a;
    } else {
      var b' := b[..|b| - 1];
      assert (a + b)[..|a + b| - 1] == a + b';
      ProjectedAppend(a, b', decode);
    }
  }

  /**
   * Every projected document is a retrieved document that decodes, with the
   * vector field deleted and every other field kept; undecodable documents are
   * skipped, and when all decode, each one is projected in place.
   */
  lemma {:induction false} ProjectedDocuments(raw: seq<string>, decode: string -> Option<Document>)
    ensures |Projected(raw, decode)| <= |raw|
    ensures forall d :: d in Projected(raw, decode) ==>
              VectorKey !in d &&
              exists i :: 0 <= i < |raw| && decode(raw[i]).Some? && d == decode(raw[i]).value - {VectorKey}
    ensures (forall i :: 0 <= i < |raw| ==> decode(raw[i]).Some?) ==>
              |Projected(raw, decode)| == |raw| &&
              forall i :: 0 <= i < |raw| ==> Projected(raw, decode)[i] == decode(raw[i]).value - {VectorKey}
  {
    if raw != [] {
      var init := raw[..|raw| - 1];
      ProjectedDocuments(init, decode);
      forall d | d in Projected(raw, decode)
        ensures VectorKey !in d
        ensures exists i :: 0 <= i < |raw| && decode(raw[i]).Some? && d == decode(raw[i]).value - {VectorKey}
      {
        if d in Projected(init, decode) {
          var i :| 0 <= i < |init| && decode(init[i]).Some? && d == decode(init[i]).value - {VectorKey};
          assert raw[i] == init[i];
        } else {
          assert d == decode(raw[|raw| - 1]).value - {VectorKey};
        }
      }
    }
  }

  /** No document that decodes, and in particular no hit at all, gives the empty text. */
  lemma NothingRetrievedGivesEmptyText(hits: seq<seq<string>>, decode: string -> Option<Document>, encode: Document -> string)
    requires forall i, j :: 0 <= i < |hits| && 0 <= j < |hits[i]| ==> decode(hits[i][j]).None?
    ensures QueryText(Hits(hits), decode, encode) == ""
  {
    var raw := Flatten(hits);
    forall k | 0 <= k < |raw| ensures decode(raw[k]).None? {
      FlattenLocate(hits, k);
    }
    ProjectedNone(raw, decode);
  }

  /** Every position of the flattened list comes from some hit list. */
  lemma {:induction false} FlattenLocate(hits: seq<seq<string>>, k: nat)
    requires k < |Flatten(hits)|
    ensures exists i, j :: 0 <= i < |hits| && 0 <= j < |hits[i]| && Flatten(hits)[k] == hits[i][j]
  {
    var init := hits[..|hits| - 1];
    var last := hits[|hits| - 1];
    if k < |Flatten(init)| {
      FlattenLocate(init, k);
      var i, j :| 0 <= i < |init| && 0 <= j < |init[i]| && Flatten(init)[k] == init[i][j];
      assert hits[i] == init[i];
    } else {
      assert Flatten(hits)[k] == last[k - |Flatten(init)|];
    }
  }

  lemma {:induction false} ProjectedNone(raw: seq<string>, decode: string -> Option<Document>)
    requires forall k :: 0 <= k < |raw| ==> decode(raw[k]).None?
    ensures Projected(raw, decode) == []
  {
    if raw != [] {
      ProjectedNone(raw[..|raw| - 1], decode);
    }
  }

  // ---------------------------------------------------------------------------
  // emailProfessor

  const EmailParameter := "email"
  const MailtoScheme := "mailto:"

  datatype MailError = ArgumentsUndecodable | EmailParameterMissing | UnsupportedPlatform

  /**
   * The outcome of emailProfessor: the command it starts, an error it
   * returns, or the run-time panic of its unchecked type assertion when the
   * email value is not a string.
   */
  datatype MailOutcome = Launch(command: seq<string>) | MailFailed(error: MailError) | Panicked

  predicate SupportedPlatform(goos: string) {
    goos == "windows" || goos == "darwin"
  }

  /**
   * emailProfessor, up to the start of the command: `args` is the outcome of
   * unmarshalling the argument text and `goos` the operating system.
   */
  function EmailProfessor(args: Option<JsonObject>, goos: string): (r: MailOutcome)
    ensures r == MailFailed(ArgumentsUndecodable) <==> args.None?
    ensures r == MailFailed(EmailParameterMissing) <==> args.Some? && Get(args.value, EmailParameter).None?
    ensures r == Panicked <==>
              args.Some? && Get(args.value, EmailParameter).Some? && !Get(args.value, EmailParameter).value.JString?
    ensures r == MailFailed(UnsupportedPlatform) <==>
              args.Some? && Get(args.value, EmailParameter).Some? && Get(args.value, EmailParameter).value.JString?
              && !SupportedPlatform(goos)
    ensures r.Launch? ==>
              && SupportedPlatform(goos)
              && |r.command| >= 2
              && r.command[|r.command| - 1] == MailtoScheme + Get(args.value, EmailParameter).value.s
              && r.command[0] == (if goos == "windows" then "rundll32" else "open")
  {
    match args
    case None => MailFailed(ArgumentsUndecodable)
    case Some(data) =>
      match Get(data, EmailParameter)
      case None => MailFailed(EmailParameterMissing)
      case Some(JString(email)) =>
        var mailto := MailtoScheme + email;
        if goos == "windows" then Launch(["rundll32", "url.dll,FileProtocolHandler", mailto])
        else if goos == "darwin" then Launch(["open", mailto])
        else MailFailed(UnsupportedPlatform)
      case Some(_) => Panicked
  }
}
