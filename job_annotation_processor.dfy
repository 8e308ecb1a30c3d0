/**
 * The job annotation processor: the annotation's `schedule` record of five cron fields
 * becomes one cron expression on a fresh job model; the docker host and certificate
 * path come from the environment.
 */
module JobAnnotations {
  import opened Wrappers
  import opened Java

  /** One entry of the `schedule` record: a sub-key and its string value. */
  datatype ScheduleField = ScheduleField(key: string, value: string)

  /** One top-level entry of the annotation; its record matters only under `schedule`. */
  datatype KeyValue = KeyValue(key: string, fields: seq<ScheduleField>)

  /** The enum lookups that fail: a top-level key, or a schedule sub-key, with no constant of that name. */
  datatype JobError = UnknownJobConfiguration(key: string) | UnknownScheduleConfig(key: string)

  const SCHEDULE: string := "schedule"
  const MINUTES: string := "minutes"
  const HOURS: string := "hours"
  const DAY_OF_MONTH: string := "dayOfMonth"
  const MONTH_OF_YEAR: string := "monthOfYear"
  const DAYS_OF_WEEK: string := "daysOfWeek"

  /** The names of the schedule sub-keys. */
  predicate IsScheduleConfig(key: string) {
    key == MINUTES || key == HOURS || key == DAY_OF_MONTH || key == MONTH_OF_YEAR || key == DAYS_OF_WEEK
  }

  /** The value of the last field with this key, or null. */
  function Lookup(fields: seq<ScheduleField>, key: string): Option<string> {
    if fields == [] then None
    else if fields[|fields| - 1].key == key then Some(fields[|fields| - 1].value)
    else Lookup(fields[..|fields| - 1], key)
  }

  /** The five fields in their fixed order, separated by single spaces; a missing field reads "null". */
  function Cron(fields: seq<ScheduleField>): string {
    Render(Lookup(fields, MINUTES)) + " " + Render(Lookup(fields, HOURS)) + " " + Render(Lookup(fields, DAY_OF_MONTH))
      + " " + Render(Lookup(fields, MONTH_OF_YEAR)) + " " + Render(Lookup(fields, DAYS_OF_WEEK))
  }

  /** The first sub-key that names no schedule field. */
  function FirstUnknownField(fields: seq<ScheduleField>): (r: Option<string>)
    ensures r.None? <==> forall j :: 0 <= j < |fields| ==> IsScheduleConfig(fields[j].key)
    ensures r.Some? ==> !IsScheduleConfig(r.value)
  {
    if fields == [] then None
    else if !IsScheduleConfig(fields[0].key) then Some(fields[0].key)
    else FirstUnknownField(fields[1..])
  }

  /** The error processing the annotation stops at, if any: entries are checked in order. */
  function AnnotationError(keyValues: seq<KeyValue>): Option<JobError> {
    if keyValues == [] then None
    else if keyValues[0].key != SCHEDULE then Some(UnknownJobConfiguration(keyValues[0].key))
    else if FirstUnknownField(keyValues[0].fields).Some? then
      Some(UnknownScheduleConfig(FirstUnknownField(keyValues[0].fields).value))
    else AnnotationError(keyValues[1..])
  }

  /** The schedule the last `schedule` entry sets; null when there is none. */
  function LastSchedule(keyValues: seq<KeyValue>): Option<string> {
    if keyValues == [] then None
    else if keyValues[|keyValues| - 1].key == SCHEDULE then Some(Cron(keyValues[|keyValues| - 1].fields))
    else LastSchedule(keyValues[..|keyValues| - 1])
  }

  /** The job model the processor fills in. */
  class JobModel {
    var schedule: Option<string>
    var dockerHost: Option<string>
    var dockerCertPath: Option<string>

    constructor ()
      ensures schedule == None && dockerHost == None && dockerCertPath == None
    {
      schedule, dockerHost, dockerCertPath := None, None, None;
    }
  }

  /** The inner loop over the `schedule` record: the last value of each field wins. */
  method BuildSchedule(fields: seq<ScheduleField>) returns (r: Result<string, JobError>)
    ensures r.Failure? <==> FirstUnknownField(fields).Some?
    ensures r.Failure? ==> r.error == UnknownScheduleConfig(FirstUnknownField(fields).value)
    ensures r.Success? ==> r.value == Cron(fields)
  {
    var minutes, hours, dayOfMonth, monthOfYear, daysOfWeek := None, None, None, None, None;
    var i := 0;
    while i < |fields|
      invariant 0 <= i <= |fields|
      invariant forall j :: 0 <= j < i ==> IsScheduleConfig(fields[j].key)
      invariant minutes == Lookup(fields[..i], MINUTES) && hours == Lookup(fields[..i], HOURS)
      invariant dayOfMonth == Lookup(fields[..i], DAY_OF_MONTH) && monthOfYear == Lookup(fields[..i], MONTH_OF_YEAR)
      invariant daysOfWeek == Lookup(fields[..i], DAYS_OF_WEEK)
    {
      assert fields[..i + 1][..i] == fields[..i];
      var field := fields[i];
      if !IsScheduleConfig(field.key) {
        FirstUnknownAfterKnownPrefix(fields, i);
        return Failure(UnknownScheduleConfig(field.key));
      }
      if field.key == MINUTES {
        minutes := Some(field.value);
      } else if field.key == HOURS {
        hours := Some(field.value);
      } else if field.key == DAY_OF_MONTH {
        dayOfMonth := Some(field.value);
      } else if field.key == MONTH_OF_YEAR {
        monthOfYear := Some(field.value);
      } else {
        daysOfWeek := Some(field.value);
      }
      i := i + 1;
    }
    assert fields[..i] == fields;
    r := Success(Render(minutes) + " " + Render(hours) + " " + Render(dayOfMonth) + " " + Render(monthOfYear) + " " + Render(daysOfWeek));
  }

  /**
   * Processes the annotation's entries in order: every key must be `schedule`, every
   * schedule sub-key one of the five; each `schedule` entry sets the job's schedule.
   * The docker host and certificate path are taken only when not blank.
   */
  method ProcessAnnotation(keyValues: seq<KeyValue>, envDockerHost: Option<string>, envDockerCertPath: Option<string>)
    returns (r: Result<JobModel, JobError>)
    ensures r.Failure? <==> AnnotationError(keyValues).Some?
    ensures r.Failure? ==> r.error == AnnotationError(keyValues).value
    ensures r.Success? ==> fresh(r.value) && r.value.schedule == LastSchedule(keyValues)
    ensures r.Success? ==> r.value.dockerHost == (if IsBlank(envDockerHost) then None else envDockerHost)
    ensures r.Success? ==> r.value.dockerCertPath == (if IsBlank(envDockerCertPath) then None else envDockerCertPath)
  {
    var job := new JobModel();
    var i := 0;
    while i < |keyValues|
      invariant 0 <= i <= |keyValues|
      invariant AnnotationError(keyValues) == AnnotationError(keyValues[i..])
      invariant job.schedule == LastSchedule(keyValues[..i])
      invariant job.dockerHost == None && job.dockerCertPath == None
      modifies job
    {
      assert keyValues[..i + 1][..i] == keyValues[..i];
      var keyValue := keyValues[i];
      if keyValue.key != SCHEDULE {
        return Failure(UnknownJobConfiguration(keyValue.key));
      }
      var schedule := BuildSchedule(keyValue.fields);
      if schedule.Failure? {
        return Failure(schedule.error);
      }
      job.schedule := Some(schedule.value);
      assert keyValues[i..][1..] == keyValues[i + 1..];
      i := i + 1;
    }
    assert keyValues[..i] == keyValues;
    if !IsBlank(envDockerHost) {
      job.dockerHost := envDockerHost;
    }
    if !IsBlank(envDockerCertPath) {
      job.dockerCertPath := envDockerCertPath;
    }
    r := Success(job);
  }

  // ---------------------------------------------------------------------------------
  // Properties of the schedule
  // ---------------------------------------------------------------------------------

  lemma {:induction false} FirstUnknownAfterKnownPrefix(fields: seq<ScheduleField>, i: int)
    requires 0 <= i < |fields|
    requires forall j :: 0 <= j < i ==> IsScheduleConfig(fields[j].key)
    requires !IsScheduleConfig(fields[i].key)
    ensures FirstUnknownField(fields) == Some(fields[i].key)
  {
    if i > 0 {
      FirstUnknownAfterKnownPrefix(fields[1..], i - 1);
    }
  }

  /** When a sub-field occurs more than once, its last occurrence is the one used. */
  lemma {:induction false} LastOccurrenceWins(fields: seq<ScheduleField>, key: string, i: int)
    requires 0 <= i < |fields| && fields[i].key == key
    requires forall j :: i < j < |fields| ==> fields[j].key != key
    ensures Lookup(fields, key) == Some(fields[i].value)
  {
    if i < |fields| - 1 {
      LastOccurrenceWins(fields[..|fields| - 1], key, i);
    }
  }

  /** A sub-field that does not occur is null. */
  lemma {:induction false} AbsentFieldIsNull(fields: seq<ScheduleField>, key: string)
    requires forall j :: 0 <= j < |fields| ==> fields[j].key != key
    ensures Lookup(fields, key) == None
  {
    if fields != [] {
      AbsentFieldIsNull(fields[..|fields| - 1], key);
    }
  }

  /** With no schedule field at all, each of the five reads "null". */
  lemma AllAbsentIsNulls()
    ensures Cron([]) == "null null null null null"
  {
  }

  predicate DistinctKeys(fields: seq<ScheduleField>) {
    forall i, j :: 0 <= i < j < |fields| ==> fields[i].key != fields[j].key
  }

  /** With distinct sub-keys, a field's value is what the record holds for it, wherever it stands. */
  lemma LookupDistinct(fields: seq<ScheduleField>, key: string, v: string)
    requires DistinctKeys(fields)
    ensures Lookup(fields, key) == Some(v) <==> ScheduleField(key, v) in fields
  {
    if ScheduleField(key, v) in fields {
      var i :| 0 <= i < |fields| && fields[i] == ScheduleField(key, v);
      LastOccurrenceWins(fields, key, i);
    } else if exists i :: 0 <= i < |fields| && fields[i].key == key {
      var i :| 0 <= i < |fields| && fields[i].key == key;
      LastOccurrenceWins(fields, key, i);
    } else {
      AbsentFieldIsNull(fields, key);
    }
  }

  /** The cron expression does not depend on the order in which the record lists its fields. */
  lemma ScheduleIgnoresFieldOrder(a: seq<ScheduleField>, b: seq<ScheduleField>)
    requires DistinctKeys(a) && DistinctKeys(b)
    requires multiset(a) == multiset(b)
    ensures Cron(a) == Cron(b)
  {
    forall key | true
      ensures Lookup(a, key) == Lookup(b, key)
    {
      if Lookup(a, key).Some? {
        var v := Lookup(a, key).value;
        LookupDistinct(a, key, v);
        assert ScheduleField(key, v) in multiset(a);
        LookupDistinct(b, key, v);
      } else if Lookup(b, key).Some? {
        var v := Lookup(b, key).value;
        LookupDistinct(b, key, v);
        assert ScheduleField(key, v) in multiset(b);
        LookupDistinct(a, key, v);
      }
    }
  }

  /** A record listing the fields out of order still gives minutes first. */
  lemma OutOfOrderExample()
    ensures Cron([ScheduleField(DAYS_OF_WEEK, "*"), ScheduleField(HOURS, "*"), ScheduleField(MINUTES, "0"),
                  ScheduleField(MONTH_OF_YEAR, "*"), ScheduleField(DAY_OF_MONTH, "*")]) == "0 * * * *"
  {
    var fields := [ScheduleField(DAYS_OF_WEEK, "*"), ScheduleField(HOURS, "*"), ScheduleField(MINUTES, "0"),
                   ScheduleField(MONTH_OF_YEAR, "*"), ScheduleField(DAY_OF_MONTH, "*")];
    LastOccurrenceWins(fields, MINUTES, 2);
    LastOccurrenceWins(fields, HOURS, 1);
    LastOccurrenceWins(fields, DAY_OF_MONTH, 4);
    LastOccurrenceWins(fields, MONTH_OF_YEAR, 3);
    LastOccurrenceWins(fields, DAYS_OF_WEEK, 0);
  }

  /**
   * The annotation is accepted exactly when every top-level key is `schedule` and every
   * sub-key of every entry names one of the five fields.
   */
  lemma {:induction false} AnnotationAcceptedIff(keyValues: seq<KeyValue>)
    ensures AnnotationError(keyValues).None? <==>
      forall i :: 0 <= i < |keyValues| ==> keyValues[i].key == SCHEDULE && FirstUnknownField(keyValues[i].fields).None?
  {
    if keyValues != [] {
      AnnotationAcceptedIff(keyValues[1..]);
      assert forall i :: 1 <= i < |keyValues| ==> keyValues[i] == keyValues[1..][i - 1];
    }
  }

  /** The first entry that is not accepted determines the error: a foreign key, or its first foreign sub-key. */
  lemma {:induction false} FirstRejectedEntryReported(keyValues: seq<KeyValue>, i: int)
    requires 0 <= i < |keyValues|
    requires forall j :: 0 <= j < i ==> keyValues[j].key == SCHEDULE && FirstUnknownField(keyValues[j].fields).None?
    requires keyValues[i].key != SCHEDULE || FirstUnknownField(keyValues[i].fields).Some?
    ensures keyValues[i].key != SCHEDULE ==> AnnotationError(keyValues) == Some(UnknownJobConfiguration(keyValues[i].key))
    ensures keyValues[i].key == SCHEDULE ==>
      AnnotationError(keyValues) == Some(UnknownScheduleConfig(FirstUnknownField(keyValues[i].fields).value))
  {
    if i > 0 {
      FirstRejectedEntryReported(keyValues[1..], i - 1);
    }
  }

  /** A schedule is set exactly when some entry is `schedule`. */
  lemma {:induction false} ScheduleSetIffPresent(keyValues: seq<KeyValue>)
    ensures LastSchedule(keyValues).None? <==> forall i :: 0 <= i < |keyValues| ==> keyValues[i].key != SCHEDULE
  {
    if keyValues != [] {
      var prefix := keyValues[..|keyValues| - 1];
      ScheduleSetIffPresent(prefix);
      assert forall i :: 0 <= i < |prefix| ==> prefix[i] == keyValues[i];
    }
  }

  /** The schedule set is the one the last `schedule` entry builds. */
  lemma {:induction false} LastScheduleEntryWins(keyValues: seq<KeyValue>, i: int)
    requires 0 <= i < |keyValues| && keyValues[i].key == SCHEDULE
    requires forall j :: i < j < |keyValues| ==> keyValues[j].key != SCHEDULE
    ensures LastSchedule(keyValues) == Some(Cron(keyValues[i].fields))
  {
    if i < |keyValues| - 1 {
      var prefix := keyValues[..|keyValues| - 1];
      assert prefix[i] == keyValues[i];
      LastScheduleEntryWins(prefix, i);
    }
  }

  /** Java's `split(" ", -1)`: the pieces between single spaces, empty ones included. */
  function SplitOnSpace(s: string): (r: seq<string>)
    ensures |r| >= 1
  {
    if s == [] then [""]
    else
      var rest := SplitOnSpace(s[1..]);
      if s[0] == ' ' then [""] + rest else [[s[0]] + rest[0]] + rest[1..]
  }

  lemma {:induction false} SplitWord(a: string)
    requires ' ' !in a
    ensures SplitOnSpace(a) == [a]
  {
    if a != [] {
      SplitWord(a[1..]);
      assert [a[0]] + a[1..] == a;
    }
  }

  /** Appending a space and a word without spaces appends that word to the pieces. */
  lemma {:induction false} SplitBeforeWord(a: string, b: string)
    requires ' ' !in b
    ensures SplitOnSpace(a + " " + b) == SplitOnSpace(a) + [b]
  {
    if a == [] {
      assert a + " " + b == [' '] + b;
      assert (a + " " + b)[1..] == b;
      SplitWord(b);
    } else {
      assert (a + " " + b)[1..] == a[1..] + " " + b;
      SplitBeforeWord(a[1..], b);
    }
  }

  lemma SplitFive(m: string, h: string, d: string, mo: string, w: string)
    requires ' ' !in m && ' ' !in h && ' ' !in d && ' ' !in mo && ' ' !in w
    ensures SplitOnSpace(m + " " + h + " " + d + " " + mo + " " + w) == [m, h, d, mo, w]
  {
    SplitWord(m);
    SplitBeforeWord(m, h);
    SplitBeforeWord(m + " " + h, d);
    SplitBeforeWord(m + " " + h + " " + d, mo);
    SplitBeforeWord(m + " " + h + " " + d + " " + mo, w);
  }

  /** When no value holds a space, splitting the expression on spaces gives back the five fields in order. */
  lemma CronSplitsIntoFields(fields: seq<ScheduleField>)
    requires forall j :: 0 <= j < |fields| ==> ' ' !in fields[j].value
    ensures SplitOnSpace(Cron(fields)) == [
      Render(Lookup(fields, MINUTES)), Render(Lookup(fields, HOURS)), Render(Lookup(fields, DAY_OF_MONTH)),
      Render(Lookup(fields, MONTH_OF_YEAR)), Render(Lookup(fields, DAYS_OF_WEEK))]
  {
    LookupHasNoSpace(fields, MINUTES);
    LookupHasNoSpace(fields, HOURS);
    LookupHasNoSpace(fields, DAY_OF_MONTH);
    LookupHasNoSpace(fields, MONTH_OF_YEAR);
    LookupHasNoSpace(fields, DAYS_OF_WEEK);
    SplitFive(Render(Lookup(fields, MINUTES)), Render(Lookup(fields, HOURS)), Render(Lookup(fields, DAY_OF_MONTH)),
      Render(Lookup(fields, MONTH_OF_YEAR)), Render(Lookup(fields, DAYS_OF_WEEK)));
  }

  lemma {:induction false} LookupHasNoSpace(fields: seq<ScheduleField>, key: string)
    requires forall j :: 0 <= j < |fields| ==> ' ' !in fields[j].value
    ensures ' ' !in Render(Lookup(fields, key))
  {
    if fields != [] && fields[|fields| - 1].key != key {
      LookupHasNoSpace(fields[..|fields| - 1], key);
    }
  }
}
