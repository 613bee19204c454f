/**
 * db.go: how parseCSVIntoDatabase shapes the courses for the three
 * collections (documents, metadata, ids, the de-duplicated instructor names
 * and course titles, batches of 500), IsNotFoundError, and the guards and
 * call order of deleteCollections and createCollections. The store itself is
 * not part of the model: its answers are parameters.
 */
module Database {
  import opened Values
  import opened GoStrings
  import opened Courses
  import WhereFilter

  const CoursesCollectionName := "usf-courses"
  const InstructorsCollectionName := "instructors"
  const SubjectsCollectionName := "subjects"

  /** Largest number of documents sent in one Add call. */
  const BatchSize := 500

  /** The text by which a store error is recognised as "not found". */
  const NotFoundMarker := "does not exist"

  // ---------------------------------------------------------------------------
  // Metadata

  /** The keys of a course's metadata: the property names of the course tool. */
  const MetadataKeys: set<string> := {
    "CRN", "Subject", "CourseNumber", "Section", "TitleShortDesc", "PrimaryInstructorEmail",
    "College", "MeetDays", "BeginTime", "EndTime", "Building", "Room",
    "InstructorFirstName", "InstructorLastName", "InstructorFullName"}

  type Metadata = map<string, string>

  function FullName(c: Course): string {
    c.instructorFirstName + " " + c.instructorLastName
  }

  /** The metadata stored beside a course document. */
  function MetadataOf(c: Course): Metadata {
    map[
      "CRN" := c.crn,
      "Subject" := c.subject,
      "CourseNumber" := c.courseNumber,
      "Section" := c.section,
      "TitleShortDesc" := c.title,
      "PrimaryInstructorEmail" := c.instructorEmail,
      "College" := c.college,
      "MeetDays" := c.meetDays,
      "BeginTime" := c.beginTime,
      "EndTime" := c.endTime,
      "Building" := c.building,
      "Room" := c.room,
      "InstructorFirstName" := c.instructorFirstName,
      "InstructorLastName" := c.instructorLastName,
      "InstructorFullName" := FullName(c)]
  }

  /**
   * Every metadata map has exactly the 15 keys; the instructor and title keys
   * that the where filter resolves hold the full name and the title.
   */
  lemma MetadataShape(c: Course)
    ensures MetadataOf(c).Keys == MetadataKeys
    ensures WhereFilter.InstructorKey in MetadataOf(c) && MetadataOf(c)[WhereFilter.InstructorKey] == FullName(c)
    ensures WhereFilter.TitleKey in MetadataOf(c) && MetadataOf(c)[WhereFilter.TitleKey] == c.title
    ensures MetadataOf(c)["CRN"] == c.crn
  {
  }

  // ---------------------------------------------------------------------------
  // De-duplication in first-seen order

  /** xs with every repeat of an earlier element dropped. */
  function Distinct(xs: seq<string>): seq<string> {
    if xs == [] then []
    else
      var d := Distinct(xs[..|xs| - 1]);
      var x := xs[|xs| - 1];
      if x in d then d else d + [x]
  }

  /** The position of the first occurrence of x in xs. */
  function FirstIndex(xs: seq<string>, x: string): (r: nat)
    requires x in xs
    ensures r < |xs| && xs[r] == x && x !in xs[..r]
  {
    if xs[0] == x then 0
    else
      var r := FirstIndex(xs[1..], x);
      assert xs[..r + 1] == [xs[0]] + xs[1..][..r];
      r + 1
  }

  lemma FirstIndexUnique(xs: seq<string>, x: string, r: nat)
    requires r < |xs| && xs[r] == x && x !in xs[..r]
    ensures FirstIndex(xs, x) == r
  {
  }

  /**
   * Distinct(xs) holds every element of xs exactly once, and lists them in the
   * order of their first occurrences in xs.
   */
  lemma {:induction false} DistinctFirstSeen(xs: seq<string>)
    ensures forall x :: x in Distinct(xs) <==> x in xs
    ensures forall i, j :: 0 <= i < j < |Distinct(xs)| ==> Distinct(xs)[i] != Distinct(xs)[j]
    ensures forall i, j :: 0 <= i < j < |Distinct(xs)| ==>
              FirstIndex(xs, Distinct(xs)[i]) < FirstIndex(xs, Distinct(xs)[j])
  {
    if xs != [] {
      var init := xs[..|xs| - 1];
      var x := xs[|xs| - 1];
      DistinctFirstSeen(init);
      assert xs == init + [x];
      var d := Distinct(init);
      forall y | y in init ensures FirstIndex(xs, y) == FirstIndex(init, y) {
        var f := FirstIndex(init, y);
        assert xs[..f] == init[..f];
        FirstIndexUnique(xs, y, f);
      }
      if x !in d {
        assert x !in init;
        assert xs[..|xs| - 1] == init;
        FirstIndexUnique(xs, x, |xs| - 1);
      }
    }
  }

  // ---------------------------------------------------------------------------
  // Batches

  /** The half-open range [start, end) of one batch. */
  datatype Range = Range(start: nat, end: nat)

  function Min(a: int, b: int): int {
    if a <= b then a else b
  }

  /** Number of batches for n documents: n / 500 rounded up. */
  function BatchCount(n: nat): (c: nat)
    ensures BatchSize * c >= n && (c > 0 ==> BatchSize * (c - 1) < n)
  {
    (n + BatchSize - 1) / BatchSize
  }

  /** The ranges [i, min(i + 500, n)) for i = 0, 500, ... below n. */
  function BatchRanges(n: nat): (b: seq<Range>)
    ensures |b| == BatchCount(n)
    ensures forall k :: 0 <= k < |b| ==> b[k] == Range(BatchSize * k, Min(BatchSize * k + BatchSize, n))
  {
    seq(BatchCount(n), (k: int) requires 0 <= k => Range(BatchSize * k, Min(BatchSize * k + BatchSize, n)))
  }

  /** The loop header of each of the three Add loops. */
  method Batches(n: nat) returns (bounds: seq<Range>)
    ensures bounds == BatchRanges(n)
  {
    bounds := [];
    var i := 0;
    while i < n
      invariant i == BatchSize * |bounds|
      invariant |bounds| <= BatchCount(n)
      invariant forall k :: 0 <= k < |bounds| ==> bounds[k] == BatchRanges(n)[k]
    {
      var end := i + BatchSize;
      if end > n {
        end := n;
      }
      bounds := bounds + [Range(i, end)];
      i := i + BatchSize;
    }
  }

  /**
   * The batches partition 0..n in order: the first starts at 0, each starts
   * where the one before it ended, the last ends at n, each holds 1 to 500
   * indices, and index j lies in batch j / 500.
   */
  lemma BatchRangesPartition(n: nat)
    ensures var b := BatchRanges(n);
      && (n == 0 <==> b == [])
      && (b != [] ==> b[0].start == 0 && b[|b| - 1].end == n)
      && (forall k :: 0 <= k < |b| ==> 0 < b[k].end - b[k].start <= BatchSize)
      && (forall k :: 0 <= k < |b| - 1 ==> b[k].end == b[k + 1].start)
      && (forall j :: 0 <= j < n ==> j / BatchSize < |b| && b[j / BatchSize].start <= j < b[j / BatchSize].end)
  {
    var b := BatchRanges(n);
    forall k | 0 <= k < |b| ensures b[k].start < b[k].end <= n {
      assert BatchSize * k <= BatchSize * (|b| - 1);
    }
  }

  /** Concatenation of a list of lists. */
  function Concat<T>(parts: seq<seq<T>>): seq<T> {
    if parts == [] then [] else Concat(parts[..|parts| - 1]) + parts[|parts| - 1]
  }

  /** The slices xs[i..min(i + 500, |xs|)] that the Add calls send, in order. */
  function BatchSlices<T>(xs: seq<T>): (r: seq<seq<T>>)
    ensures |r| == |BatchRanges(|xs|)|
    ensures forall k :: 0 <= k < |r| ==>
              BatchRanges(|xs|)[k].end <= |xs| && r[k] == xs[BatchRanges(|xs|)[k].start..BatchRanges(|xs|)[k].end]
  {
    BatchRangesPartition(|xs|);
    seq(BatchCount(|xs|), (k: int) requires 0 <= k < BatchCount(|xs|) =>
      xs[BatchRanges(|xs|)[k].start..BatchRanges(|xs|)[k].end])
  }

  /** Sending the batches one after another sends every element once, in order. */
  lemma BatchesCoverInOrder<T>(xs: seq<T>)
    ensures Concat(BatchSlices(xs)) == xs
  {
    var s := BatchSlices(xs);
    BatchPrefixes(xs, |s|);
    assert s[..|s|] == s;
    assert xs[..Min(BatchSize * |s|, |xs|)] == xs;
  }

  lemma {:induction false} BatchPrefixes<T>(xs: seq<T>, m: nat)
    requires m <= |BatchSlices(xs)|
    ensures Concat(BatchSlices(xs)[..m]) == xs[..Min(BatchSize * m, |xs|)]
  {
    if m > 0 {
      var s := BatchSlices(xs);
      BatchPrefixes(xs, m - 1);
      assert s[..m][..m - 1] == s[..m - 1];
      var lo, hi := BatchSize * (m - 1), Min(BatchSize * m, |xs|);
      assert s[m - 1] == xs[lo..hi];
      assert xs[..hi] == xs[..lo] + xs[lo..hi];
    }
  }

  // ---------------------------------------------------------------------------
  // parseCSVIntoDatabase

  /** What parseCSVIntoDatabase hands to the three collections. */
  datatype Ingestion = Ingestion(
    courseDocuments: seq<string>,
    courseMetadatas: seq<Metadata>,
    courseIds: seq<string>,
    instructorDocuments: seq<string>,
    instructorIds: seq<string>,
    subjectDocuments: seq<string>,
    subjectIds: seq<string>)

  function FullNames(courses: seq<Course>): seq<string> {
    seq(|courses|, i requires 0 <= i < |courses| => FullName(courses[i]))
  }

  function Titles(courses: seq<Course>): seq<string> {
    seq(|courses|, i requires 0 <= i < |courses| => courses[i].title)
  }

  /**
   * The `if _, exists := set[x]; !exists` step of the loop: x is added to the
   * set and listed, unless the set already holds it.
   */
  method Remember(seen: set<string>, listed: seq<string>, x: string) returns (seen': set<string>, listed': seq<string>)
    requires seen == Elements(listed)
    ensures seen' == Elements(listed')
    ensures listed' == if x in listed then listed else listed + [x]
  {
    seen', listed' := seen, listed;
    if x !in seen {
      seen' := seen + {x};
      listed' := listed + [x];
    }
  }

  /** The elements of a list, as a set. */
  function Elements(xs: seq<string>): set<string> {
    set x | x in xs
  }

  lemma DistinctSnoc(xs: seq<string>, x: string)
    ensures Distinct(xs + [x]) == if x in Distinct(xs) then Distinct(xs) else Distinct(xs) + [x]
  {
    assert (xs + [x])[..|xs|] == xs;
  }

  function CourseDocuments(courses: seq<Course>, encode: Course -> string): seq<string> {
    seq(|courses|, i requires 0 <= i < |courses| => encode(courses[i]))
  }

  function CourseMetadatas(courses: seq<Course>): seq<Metadata> {
    seq(|courses|, i requires 0 <= i < |courses| => MetadataOf(courses[i]))
  }

  function Crns(courses: seq<Course>): seq<string> {
    seq(|courses|, i requires 0 <= i < |courses| => courses[i].crn)
  }

  /** One more course adds its document, metadata and id at the end. */
  lemma CoursesSnoc(courses: seq<Course>, i: nat, encode: Course -> string)
    requires i < |courses|
    ensures CourseDocuments(courses[..i + 1], encode) == CourseDocuments(courses[..i], encode) + [encode(courses[i])]
    ensures CourseMetadatas(courses[..i + 1]) == CourseMetadatas(courses[..i]) + [MetadataOf(courses[i])]
    ensures Crns(courses[..i + 1]) == Crns(courses[..i]) + [courses[i].crn]
  {
  }

  /** One more course adds its name and its title at the end, unless already listed. */
  lemma NamesSnoc(courses: seq<Course>, i: nat)
    requires i < |courses|
    ensures Distinct(FullNames(courses[..i + 1])) ==
              var d := Distinct(FullNames(courses[..i])); if FullName(courses[i]) in d then d else d + [FullName(courses[i])]
    ensures Distinct(Titles(courses[..i + 1])) ==
              var d := Distinct(Titles(courses[..i])); if courses[i].title in d then d else d + [courses[i].title]
  {
    assert FullNames(courses[..i + 1]) == FullNames(courses[..i]) + [FullName(courses[i])];
    DistinctSnoc(FullNames(courses[..i]), FullName(courses[i]));
    assert Titles(courses[..i + 1]) == Titles(courses[..i]) + [courses[i].title];
    DistinctSnoc(Titles(courses[..i]), courses[i].title);
  }

  /**
   * parseCSVIntoDatabase after the courses are read: `encode` is the JSON
   * encoding of a course. The batches are the ranges of each Add loop.
   */
  method ParseCsvIntoDatabase(courses: seq<Course>, encode: Course -> string)
    returns (ing: Ingestion, courseBatches: seq<Range>, instructorBatches: seq<Range>, subjectBatches: seq<Range>)
    ensures Shaped(courses, encode, ing)
    ensures courseBatches == BatchRanges(|courses|)
    ensures instructorBatches == BatchRanges(|ing.instructorDocuments|)
    ensures subjectBatches == BatchRanges(|ing.subjectDocuments|)
  {
    ing := CollectDocuments(courses, encode);
    courseBatches := Batches(|ing.courseDocuments|);
    instructorBatches := Batches(|ing.instructorDocuments|);
    subjectBatches := Batches(|ing.subjectDocuments|);
  }

  /**
   * What the loop over the courses collects: one document, metadata map and
   * id per course, in course order, and the de-duplicated names and titles.
   */
  predicate Shaped(courses: seq<Course>, encode: Course -> string, ing: Ingestion) {
    && |ing.courseDocuments| == |courses| && |ing.courseMetadatas| == |courses| && |ing.courseIds| == |courses|
    && (forall i :: 0 <= i < |courses| ==>
          && ing.courseDocuments[i] == encode(courses[i])
          && ing.courseMetadatas[i] == MetadataOf(courses[i])
          && ing.courseIds[i] == courses[i].crn)
    && ing.instructorDocuments == Distinct(FullNames(courses)) && ing.instructorIds == ing.instructorDocuments
    && ing.subjectDocuments == Distinct(Titles(courses)) && ing.subjectIds == ing.subjectDocuments
  }

  /** The loop over the courses in parseCSVIntoDatabase. */
  method CollectDocuments(courses: seq<Course>, encode: Course -> string) returns (ing: Ingestion)
    ensures Shaped(courses, encode, ing)
  {
    var courseDocuments: seq<string> := [];
    var courseMetadatas: seq<Metadata> := [];
    var courseIds: seq<string> := [];
    var instructorDocuments: seq<string> := [];
    var instructorIds: seq<string> := [];
    var subjectDocuments: seq<string> := [];
    var subjectIds: seq<string> := [];
    var instructorSet: set<string> := {};
    var subjectSet: set<string> := {};
    var i := 0;
    while i < |courses|
      invariant 0 <= i <= |courses|
      invariant courseDocuments == CourseDocuments(courses[..i], encode)
      invariant courseMetadatas == CourseMetadatas(courses[..i])
      invariant courseIds == Crns(courses[..i])
      invariant instructorDocuments == Distinct(FullNames(courses[..i])) && instructorIds == instructorDocuments
      invariant subjectDocuments == Distinct(Titles(courses[..i])) && subjectIds == subjectDocuments
      invariant instructorSet == Elements(instructorDocuments)
      invariant subjectSet == Elements(subjectDocuments)
    {
      var course := courses[i];
      CoursesSnoc(courses, i, encode);
      courseDocuments := courseDocuments + [encode(course)];
      courseMetadatas := courseMetadatas + [MetadataOf(course)];
      courseIds := courseIds + [course.crn];

      NamesSnoc(courses, i);
      instructorSet, instructorDocuments := Remember(instructorSet, instructorDocuments, FullName(course));
      instructorIds := instructorDocuments;

      subjectSet, subjectDocuments := Remember(subjectSet, subjectDocuments, course.title);
      subjectIds := subjectDocuments;
      i := i + 1;
    }
    assert courses[..i] == courses;
    ing := Ingestion(courseDocuments, courseMetadatas, courseIds,
                     instructorDocuments, instructorIds, subjectDocuments, subjectIds);
  }

  /**
   * Distinct keeps exactly the values of the list: every value is kept, each
   * kept value occurs in the list, and none is kept twice.
   */
  lemma DistinctCovers(values: seq<string>)
    ensures forall i :: 0 <= i < |values| ==> values[i] in Distinct(values)
    ensures forall x :: x in Distinct(values) ==> exists i :: 0 <= i < |values| && values[i] == x
    ensures forall i, j :: 0 <= i < j < |Distinct(values)| ==> Distinct(values)[i] != Distinct(values)[j]
  {
    DistinctFirstSeen(values);
  }

  /**
   * The instructor collection holds each instructor's full name exactly once,
   * for every course and for nothing else.
   */
  lemma IngestedInstructors(courses: seq<Course>)
    ensures forall i :: 0 <= i < |courses| ==> FullName(courses[i]) in Distinct(FullNames(courses))
    ensures forall x :: x in Distinct(FullNames(courses)) ==>
              exists i :: 0 <= i < |courses| && FullName(courses[i]) == x
  {
    var names := FullNames(courses);
    DistinctCovers(names);
    forall i | 0 <= i < |courses| ensures FullName(courses[i]) in Distinct(names) {
      assert names[i] == FullName(courses[i]);
    }
  }

  /** The subject collection holds each course title exactly once, for every course and for nothing else. */
  lemma IngestedSubjects(courses: seq<Course>)
    ensures forall i :: 0 <= i < |courses| ==> courses[i].title in Distinct(Titles(courses))
    ensures forall x :: x in Distinct(Titles(courses)) ==>
              exists i :: 0 <= i < |courses| && courses[i].title == x
  {
    var titles := Titles(courses);
    DistinctCovers(titles);
    forall i | 0 <= i < |courses| ensures courses[i].title in Distinct(titles) {
      assert titles[i] == courses[i].title;
    }
  }

  // ---------------------------------------------------------------------------
  // Store errors and the collection lifecycle

  /** IsNotFoundError: a store error (None for nil) that reports a missing collection. */
  function IsNotFoundError(err: Option<string>): (r: bool)
    ensures err.None? ==> !r
    ensures err.Some? ==> (r <==> exists i: nat :: OccursAt(err.value, NotFoundMarker, i))
  {
    err.Some? && Contains(err.value, NotFoundMarker)
  }

  /** The store's message for a missing collection is recognised. */
  lemma MissingCollectionIsNotFound(name: string)
    ensures IsNotFoundError(Some("collection " + name + " does not exist"))
  {
    var msg := "collection " + name + " does not exist";
    var i := |"collection " + name| + 1;
    assert msg[i..i + |NotFoundMarker|] == NotFoundMarker;
    assert OccursAt(msg, NotFoundMarker, i);
  }

  /** A deletion outcome deleteCollections carries on after. */
  predicate Tolerated(err: Option<string>) {
    err.None? || IsNotFoundError(err)
  }

  datatype DbError =
    | ClientNotInitialized
    | EmbeddingUnavailable(msg: string)
    | DeleteFailed(collection: string, msg: string)
    | CreateFailed(collection: string, msg: string)

  /** A collection handle, known by its name. */
  datatype Collection = Collection(name: string)

  /** The store handle: the client, when there is one, and the three collections. */
  class Db {
    var connected: bool
    var coursesCollection: Option<Collection>
    var instructorsCollection: Option<Collection>
    var subjectsCollection: Option<Collection>

    /** initializeDB, with the outcome of each GetCollection as a parameter. */
    constructor (connected: bool, courses: Option<Collection>, instructors: Option<Collection>, subjects: Option<Collection>)
      ensures this.connected == connected
      ensures coursesCollection == courses && instructorsCollection == instructors && subjectsCollection == subjects
    {
      this.connected := connected;
      coursesCollection := courses;
      instructorsCollection := instructors;
      subjectsCollection := subjects;
    }

    /**
     * deleteCollections, with `delete` the store's answer to deleting the
     * named collection (None for success). `attempted` lists the deletions
     * made, in order.
     */
    method DeleteCollections(delete: string -> Option<string>) returns (err: Option<DbError>, attempted: seq<string>)
      ensures !connected ==> err == Some(ClientNotInitialized) && attempted == []
      ensures connected ==>
                && 1 <= |attempted| <= 3
                && attempted == [CoursesCollectionName, InstructorsCollectionName, SubjectsCollectionName][..|attempted|]
                && (forall k :: 0 <= k < |attempted| - 1 ==> Tolerated(delete(attempted[k])))
                && (err.None? <==> |attempted| == 3 && Tolerated(delete(attempted[2])))
                && (err.Some? ==>
                      var last := attempted[|attempted| - 1];
                      !Tolerated(delete(last)) && err.value == DeleteFailed(last, delete(last).value))
    {
      if !connected {
        return Some(ClientNotInitialized), [];
      }
      attempted := [CoursesCollectionName];
      var e := delete(CoursesCollectionName);
      if e.Some? && !IsNotFoundError(e) {
        return Some(DeleteFailed(CoursesCollectionName, e.value)), attempted;
      }
      attempted := attempted + [InstructorsCollectionName];
      e := delete(InstructorsCollectionName);
      if e.Some? && !IsNotFoundError(e) {
        return Some(DeleteFailed(InstructorsCollectionName, e.value)), attempted;
      }
      attempted := attempted + [SubjectsCollectionName];
      e := delete(SubjectsCollectionName);
      if e.Some? && !IsNotFoundError(e) {
        return Some(DeleteFailed(SubjectsCollectionName, e.value)), attempted;
      }
      err := None;
    }

    /**
     * createCollections, with `embeddingError` the failure to build the
     * embedding function, if any, and `create` the store's answer to creating
     * the named collection. Each created collection is stored before the next
     * is attempted; the first failure stops the sequence. `attempted` lists
     * the creations made, in order.
     */
    method CreateCollections(embeddingError: Option<string>, create: string -> Result<Collection, string>)
      returns (err: Option<DbError>, attempted: seq<string>)
      modifies this
      ensures connected == old(connected)
      ensures !connected ==> err == Some(ClientNotInitialized) && attempted == [] && unchanged(this)
      ensures connected && embeddingError.Some? ==>
                err == Some(EmbeddingUnavailable(embeddingError.value)) && attempted == [] && unchanged(this)
      ensures connected && embeddingError.None? ==>
                && 1 <= |attempted| <= 3
                && attempted == [CoursesCollectionName, InstructorsCollectionName, SubjectsCollectionName][..|attempted|]
                && (forall k :: 0 <= k < |attempted| - 1 ==> create(attempted[k]).Ok?)
                && (err.None? <==> |attempted| == 3 && create(attempted[2]).Ok?)
                && (err.Some? ==>
                      var last := attempted[|attempted| - 1];
                      create(last).Err? && err.value == CreateFailed(last, create(last).error))
      ensures connected && embeddingError.None? ==>
                var c, i, s := create(CoursesCollectionName), create(InstructorsCollectionName), create(SubjectsCollectionName);
                && (c.Err? ==> unchanged(this))
                && (c.Ok? ==> coursesCollection == Some(c.value))
                && (c.Ok? && i.Err? ==>
                      instructorsCollection == old(instructorsCollection) && subjectsCollection == old(subjectsCollection))
                && (c.Ok? && i.Ok? ==> instructorsCollection == Some(i.value))
                && (c.Ok? && i.Ok? && s.Err? ==> subjectsCollection == old(subjectsCollection))
                && (c.Ok? && i.Ok? && s.Ok? ==> subjectsCollection == Some(s.value))
    {
      if !connected {
        return Some(ClientNotInitialized), [];
      }
      if embeddingError.Some? {
        return Some(EmbeddingUnavailable(embeddingError.value)), [];
      }
      attempted := [CoursesCollectionName];
      var created := create(CoursesCollectionName);
      if created.Err? {
        return Some(CreateFailed(CoursesCollectionName, created.error)), attempted;
      }
      coursesCollection := Some(created.value);
      attempted := attempted + [InstructorsCollectionName];
      created := create(InstructorsCollectionName);
      if created.Err? {
        return Some(CreateFailed(InstructorsCollectionName, created.error)), attempted;
      }
      instructorsCollection := Some(created.value);
      attempted := attempted + [SubjectsCollectionName];
      created := create(SubjectsCollectionName);
      if created.Err? {
        return Some(CreateFailed(SubjectsCollectionName, created.error)), attempted;
      }
      subjectsCollection := Some(created.value);
      err := None;
    }
  }
}
