/**
 * course.go: the Course record and readCoursesFromCSV, which turns the
 * records of a CSV file into courses. The first record is the header; a row
 * with fewer fields than the header is skipped; the others are mapped to the
 * 21 course fields by position.
 */
module Courses {

  /** Number of leading CSV fields a course is read from. */
  const CourseFieldCount := 21

  datatype Course = Course(
    subject: string,
    courseNumber: string,
    section: string,
    crn: string,
    scheduleTypeCode: string,
    campusCode: string,
    title: string,
    instructionMode: string,
    meetingTypeCodes: string,
    meetDays: string,
    beginTime: string,
    endTime: string,
    meetStart: string,
    meetEnd: string,
    building: string,
    room: string,
    actualEnrollment: string,
    instructorFirstName: string,
    instructorLastName: string,
    instructorEmail: string,
    college: string)

  /** A course's fields in CSV column order. */
  function Fields(c: Course): (r: seq<string>)
    ensures |r| == CourseFieldCount
  {
    [c.subject, c.courseNumber, c.section, c.crn, c.scheduleTypeCode, c.campusCode, c.title,
     c.instructionMode, c.meetingTypeCodes, c.meetDays, c.beginTime, c.endTime, c.meetStart,
     c.meetEnd, c.building, c.room, c.actualEnrollment, c.instructorFirstName,
     c.instructorLastName, c.instructorEmail, c.college]
  }

  /** The course a record describes, field i taken from column i. */
  function CourseOf(record: seq<string>): (c: Course)
    requires |record| >= CourseFieldCount
    ensures Fields(c) == record[..CourseFieldCount]
  {
    Course(record[0], record[1], record[2], record[3], record[4], record[5], record[6],
           record[7], record[8], record[9], record[10], record[11], record[12], record[13],
           record[14], record[15], record[16], record[17], record[18], record[19], record[20])
  }

  /** Reading a course back from its fields gives the same course. */
  lemma CourseOfFields(c: Course)
    ensures CourseOf(Fields(c)) == c
  {
  }

  /**
   * A CSV file as the reader sees it: it cannot be opened, or it is the list
   * of records the reader returns, followed by a syntax error if `malformed`.
   */
  datatype CsvFile = Unopenable | Records(records: seq<seq<string>>, malformed: bool)

  datatype ReadError = OpenFailed | HeaderUnreadable | RecordsUnreadable

  /**
   * What readCoursesFromCSV ends with: the courses, an error, or the index-out-
   * of-range panic when a row kept for being as wide as the header has fewer
   * than 21 fields (possible only when the header itself does).
   */
  datatype ReadOutcome = Read(courses: seq<Course>) | ReadFailed(error: ReadError) | ReadPanicked

  /** The rows at least `width` fields wide, in their order. */
  function Kept(rows: seq<seq<string>>, width: nat): seq<seq<string>> {
    if rows == [] then []
    else
      var init := Kept(rows[..|rows| - 1], width);
      if |rows[|rows| - 1]| < width then init else init + [rows[|rows| - 1]]
  }

  /** What the loop over the data rows yields: the courses, or the panic. */
  datatype Converted = AllRows(courses: seq<Course>) | RowTooShort

  /** The loop over the data rows, for a header `width` fields wide. */
  function Convert(rows: seq<seq<string>>, width: nat): Converted {
    if rows == [] then AllRows([])
    else
      var done := Convert(rows[..|rows| - 1], width);
      var row := rows[|rows| - 1];
      if done.RowTooShort? || |row| < width then done
      else if |row| < CourseFieldCount then RowTooShort
      else AllRows(done.courses + [CourseOf(row)])
  }

  function ReadCourses(file: CsvFile): ReadOutcome {
    match file
    case Unopenable => ReadFailed(OpenFailed)
    case Records(records, malformed) =>
      if records == [] then ReadFailed(HeaderUnreadable)
      else if malformed then ReadFailed(RecordsUnreadable)
      else
        match Convert(records[1..], |records[0]|)
        case AllRows(courses) => Read(courses)
        case RowTooShort => ReadPanicked
  }

  /** readCoursesFromCSV. */
  method ReadCoursesFromCsv(file: CsvFile) returns (r: ReadOutcome)
    ensures r == ReadCourses(file)
  {
    if file.Unopenable? {
      return ReadFailed(OpenFailed);
    }
    if file.records == [] {
      return ReadFailed(HeaderUnreadable);
    }
    var headers := file.records[0];
    if file.malformed {
      return ReadFailed(RecordsUnreadable);
    }
    var records := file.records[1..];
    var courses: seq<Course> := [];
    var i := 0;
    while i < |records|
      invariant 0 <= i <= |records|
      invariant Convert(records[..i], |headers|) == AllRows(courses)
    {
      var record := records[i];
      assert records[..i + 1][..i] == records[..i];
      if |record| < |headers| {
        i := i + 1;
        continue;
      }
      if |record| < CourseFieldCount {
        PanicIsFinal(records, i + 1, |headers|);
        assert records[..i + 1] + records[i + 1..] == records;
        return ReadPanicked;
      }
      courses := courses + [CourseOf(record)];
      i := i + 1;
    }
    assert records[..i] == records;
    r := Read(courses);
  }

  // ---------------------------------------------------------------------------
  // Properties

  lemma {:induction false} ConvertAppend(a: seq<seq<string>>, b: seq<seq<string>>, width: nat)
    ensures Convert(a, width).RowTooShort? ==> Convert(a + b, width).RowTooShort?
    ensures Convert(a, width).AllRows? && Convert(b, width).AllRows? ==>
              Convert(a + b, width) == AllRows(Convert(a, width).courses + Convert(b, width).courses)
    ensures Convert(b, width).RowTooShort? ==> Convert(a + b, width).RowTooShort?
    decreases |b|
  {
    if b == [] {
      assert a + b == a;
    } else {
      var b' := b[..|b| - 1];
      assert (a + b)[..|a + b| - 1] == a + b';
      ConvertAppend(a, b', width);
    }
  }

  lemma PanicIsFinal(rows: seq<seq<string>>, k: nat, width: nat)
    requires k <= |rows| && Convert(rows[..k], width).RowTooShort?
    ensures Convert(rows, width).RowTooShort?
  {
    assert rows == rows[..k] + rows[k..];
    ConvertAppend(rows[..k], rows[k..], width);
  }

  /** A row is kept exactly when it is at least as wide as the header. */
  lemma {:induction false} KeptRows(rows: seq<seq<string>>, width: nat)
    ensures forall row :: row in Kept(rows, width) <==> row in rows && |row| >= width
    ensures |Kept(rows, width)| <= |rows|
  {
    if rows != [] {
      KeptRows(rows[..|rows| - 1], width);
      assert rows == rows[..|rows| - 1] + [rows[|rows| - 1]];
    }
  }

  /** The loop panics exactly when some kept row has fewer than 21 fields. */
  lemma {:induction false} ConvertPanics(rows: seq<seq<string>>, width: nat)
    ensures Convert(rows, width).RowTooShort? <==>
              exists row :: row in Kept(rows, width) && |row| < CourseFieldCount
  {
    if rows != [] {
      var init := rows[..|rows| - 1];
      var row := rows[|rows| - 1];
      ConvertPanics(init, width);
      if |row| >= width {
        var kept := Kept(rows, width);
        assert kept == Kept(init, width) + [row];
        if Convert(init, width).RowTooShort? {
          var p :| p in Kept(init, width) && |p| < CourseFieldCount;
          assert p in kept;
        }
      }
    }
  }

  /** Without the panic, the loop yields one course per kept row, in order, read by position. */
  lemma {:induction false} ConvertCourses(rows: seq<seq<string>>, width: nat)
    ensures Convert(rows, width).AllRows? ==>
              && |Convert(rows, width).courses| == |Kept(rows, width)|
              && forall i :: 0 <= i < |Kept(rows, width)| ==>
                   |Kept(rows, width)[i]| >= CourseFieldCount
                   && Fields(Convert(rows, width).courses[i]) == Kept(rows, width)[i][..CourseFieldCount]
  {
    if rows != [] {
      ConvertCourses(rows[..|rows| - 1], width);
    }
  }

  /**
   * A row is kept exactly when it is at least as wide as the header; the
   * loop panics exactly when some kept row has fewer than 21 fields, and
   * otherwise yields one course per kept row, in order, read by position.
   */
  lemma ConvertKeeps(rows: seq<seq<string>>, width: nat)
    ensures forall row :: row in Kept(rows, width) <==> row in rows && |row| >= width
    ensures |Kept(rows, width)| <= |rows|
    ensures Convert(rows, width).RowTooShort? <==>
              exists row :: row in Kept(rows, width) && |row| < CourseFieldCount
    ensures Convert(rows, width).AllRows? ==>
              && |Convert(rows, width).courses| == |Kept(rows, width)|
              && forall i :: 0 <= i < |Kept(rows, width)| ==>
                   |Kept(rows, width)[i]| >= CourseFieldCount
                   && Fields(Convert(rows, width).courses[i]) == Kept(rows, width)[i][..CourseFieldCount]
  {
    KeptRows(rows, width);
    ConvertPanics(rows, width);
    ConvertCourses(rows, width);
  }

  /** A header of at least 21 columns rules out the panic. */
  lemma WideHeaderNeverPanics(rows: seq<seq<string>>, width: nat)
    requires width >= CourseFieldCount
    ensures Convert(rows, width).AllRows?
  {
    ConvertKeeps(rows, width);
  }

  /**
   * readCoursesFromCSV end to end: an empty file is a header error, a syntax
   * error anywhere is a records error, and otherwise the header is consumed
   * and every data row as wide as it becomes one course.
   */
  lemma ReadCoursesOutcome(file: CsvFile)
    ensures ReadCourses(file) == ReadFailed(OpenFailed) <==> file.Unopenable?
    ensures ReadCourses(file) == ReadFailed(HeaderUnreadable) <==> file.Records? && file.records == []
    ensures ReadCourses(file) == ReadFailed(RecordsUnreadable) <==>
              file.Records? && file.records != [] && file.malformed
    ensures file.Records? && file.records != [] && !file.malformed && |file.records[0]| >= CourseFieldCount ==>
              var kept := Kept(file.records[1..], |file.records[0]|);
              && ReadCourses(file).Read?
              && |ReadCourses(file).courses| == |kept|
              && forall i :: 0 <= i < |kept| ==>
                   |kept[i]| >= CourseFieldCount && ReadCourses(file).courses[i] == CourseOf(kept[i])
  {
    if file.Records? && file.records != [] && !file.malformed {
      var rows, width := file.records[1..], |file.records[0]|;
      ConvertKeeps(rows, width);
      if width >= CourseFieldCount {
        var kept := Kept(rows, width);
        forall i | 0 <= i < |kept| ensures ReadCourses(file).courses[i] == CourseOf(kept[i]) {
          CourseOfFields(ReadCourses(file).courses[i]);
        }
      }
    }
  }
}
