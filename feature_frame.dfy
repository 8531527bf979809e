/**
 Schema alignment: the one-row input frame is built from the thirteen base
 columns, every schema column the frame lacks is added with value 0, the
 one-hot columns of the chosen task type and day are switched on, and the frame
 is projected onto the schema's column order. A frame is a map from column name
 to value; the schema is the ordered column list the classifier was fitted on.
 */
module FeatureFrame {
  import opened Signals

  type Frame = map<string, real>

  /** No string occurs twice, as in a schema's columns or the list of reasons. */
  predicate Distinct(xs: seq<string>) {
    forall i, j :: 0 <= i < j < |xs| ==> xs[i] != xs[j]
  }

  /** Lower-casing of one ASCII character. */
  function LowerChar(c: char): char {
    if 'A' <= c <= 'Z' then (c as int + 32) as char else c
  }

  /** Lower-casing of a string, character by character. */
  function Lower(s: string): (r: string)
    ensures |r| == |s|
    ensures forall i :: 0 <= i < |s| ==> r[i] == LowerChar(s[i])
  {
    if s == [] then [] else [LowerChar(s[0])] + Lower(s[1..])
  }

  const TaskPrefix: string := "task_type_"
  const DayPrefix: string := "day_of_week_"

  /** A column belongs to the task-type one-hot field. */
  predicate InTaskField(c: string) {
    TaskPrefix <= c
  }

  /** A column belongs to the day-of-week one-hot field. */
  predicate InDayField(c: string) {
    DayPrefix <= c
  }

  /**
   The one-hot column a task type activates: the task-type prefix followed by
   the task's label lower-cased character by character. It lies in the
   task-type field and not in the day-of-week field.
   */
  function TaskColumn(t: TaskType): (c: string)
    ensures InTaskField(c) && !InDayField(c)
    ensures |c| == |TaskPrefix| + |TaskName(t)|
    ensures forall i :: 0 <= i < |TaskName(t)| ==> c[|TaskPrefix| + i] == LowerChar(TaskName(t)[i])
  {
    var c := TaskPrefix + Lower(TaskName(t));
    assert c[..|TaskPrefix|] == TaskPrefix;
    NotPrefixAt(DayPrefix, c, 0);
    c
  }

  /**
   The one-hot column a day activates: the day-of-week prefix followed by the
   day's label lower-cased character by character. It lies in the day-of-week
   field and not in the task-type field.
   */
  function DayColumn(d: Day): (c: string)
    ensures InDayField(c) && !InTaskField(c)
    ensures |c| == |DayPrefix| + |DayName(d)|
    ensures forall i :: 0 <= i < |DayName(d)| ==> c[|DayPrefix| + i] == LowerChar(DayName(d)[i])
  {
    var c := DayPrefix + Lower(DayName(d));
    assert c[..|DayPrefix|] == DayPrefix;
    NotPrefixAt(TaskPrefix, c, 0);
    c
  }

  /** The thirteen columns the frame starts from, in the source's order. */
  const BaseColumns: seq<string> := [
    "task_priority", "mood", "energy", "stress", "used_social_media",
    "post_social_feeling", "emotional_load", "mental_readiness",
    "social_media_risk", "low_energy", "high_stress", "is_weekend",
    "procrastination_risk_index"]

  /** The one-row frame built from the raw answers and their signals. */
  function BaseFrame(raw: RawInput): (frame: Frame)
    requires ValidInput(raw)
    ensures frame.Keys == set c | c in BaseColumns
  {
    var s := Engineer(raw);
    map[
      "task_priority" := raw.taskPriority as real,
      "mood" := raw.mood as real,
      "energy" := raw.energy as real,
      "stress" := raw.stress as real,
      "used_social_media" := s.usedSocialMediaNum as real,
      "post_social_feeling" := raw.postSocialFeeling as real,
      "emotional_load" := s.emotionalLoad as real,
      "mental_readiness" := s.mentalReadiness,
      "social_media_risk" := s.socialMediaRisk as real,
      "low_energy" := s.lowEnergy as real,
      "high_stress" := s.highStress as real,
      "is_weekend" := s.isWeekend as real,
      "procrastination_risk_index" := s.riskIndex as real]
  }

  /**
   The value the aligned vector must hold for schema column c: 1 for the chosen
   task type's and day's one-hot columns, the base value for a base column, and 0
   for every other column.
   */
  function ExpectedValue(raw: RawInput, c: string): real
    requires ValidInput(raw)
  {
    if c == TaskColumn(raw.taskType) || c == DayColumn(raw.day) then 1.0
    else if c in BaseFrame(raw) then BaseFrame(raw)[c]
    else 0.0
  }

  /** The aligned feature vector, column by column in schema order. */
  function FeatureVector(raw: RawInput, schema: seq<string>): (v: seq<real>)
    requires ValidInput(raw)
  {
    seq(|schema|, i requires 0 <= i < |schema| => ExpectedValue(raw, schema[i]))
  }

  /**
   Zero-fill: every schema column the frame lacks is added with value 0; the
   columns already present keep their values and nothing else is added.
   */
  method ZeroFill(frame: Frame, schema: seq<string>) returns (filled: Frame)
    ensures filled.Keys == frame.Keys + set c | c in schema
    ensures forall c :: c in frame ==> filled[c] == frame[c]
    ensures forall c :: c in filled && c !in frame ==> filled[c] == 0.0
  {
    filled := frame;
    for i := 0 to |schema|
      invariant filled.Keys == frame.Keys + set c | c in schema[..i]
      invariant forall c :: c in frame ==> filled[c] == frame[c]
      invariant forall c :: c in filled && c !in frame ==> filled[c] == 0.0
    {
      if schema[i] !in filled {
        filled := filled[schema[i] := 0.0];
      }
      assert schema[..i + 1] == schema[..i] + [schema[i]];
    }
    assert schema[..|schema|] == schema;
  }

  /**
   One-hot activation: each of the two columns is set to 1 when the frame has
   it; no column is added and every other column keeps its value.
   */
  method ActivateOneHot(frame: Frame, taskCol: string, dayCol: string) returns (activated: Frame)
    ensures activated.Keys == frame.Keys
    ensures forall c :: c in activated ==>
      activated[c] == if c == taskCol || c == dayCol then 1.0 else frame[c]
  {
    activated := frame;
    if taskCol in activated {
      activated := activated[taskCol := 1.0];
    }
    if dayCol in activated {
      activated := activated[dayCol := 1.0];
    }
  }

  /** The frame's values read off in the schema's column order. */
  function Project(frame: Frame, schema: seq<string>): (v: seq<real>)
    requires forall c :: c in schema ==> c in frame
    ensures |v| == |schema|
    ensures forall i :: 0 <= i < |schema| ==> v[i] == frame[schema[i]]
  {
    if schema == [] then [] else [frame[schema[0]]] + Project(frame, schema[1..])
  }

  /**
   Builds the model input for one request: base frame, zero-fill, one-hot
   activation (tested against the frame's columns, schema plus base), then
   projection onto the schema. The projection never misses a column.
   */
  method BuildFeatureVector(raw: RawInput, schema: seq<string>) returns (v: seq<real>)
    requires ValidInput(raw)
    ensures |v| == |schema|
    ensures v == FeatureVector(raw, schema)
  {
    var frame := BaseFrame(raw);
    frame := ZeroFill(frame, schema);
    frame := ActivateOneHot(frame, TaskColumn(raw.taskType), DayColumn(raw.day));
    v := Project(frame, schema);
    forall i | 0 <= i < |schema|
      ensures v[i] == ExpectedValue(raw, schema[i])
    {
      assert schema[i] in frame;
    }
  }

  /** A string that differs from p at some index within both is not prefixed by p. */
  lemma NotPrefixAt(p: string, c: string, k: nat)
    requires k < |p| && k < |c| && p[k] != c[k]
    ensures !(p <= c)
  {
  }

  /** No base column lies in either one-hot field. */
  lemma BaseOutsideFields(c: string)
    requires c in BaseColumns
    ensures !InTaskField(c) && !InDayField(c)
  {
    NotPrefixAt(DayPrefix, c, 0);
    if c == "task_priority" {
      NotPrefixAt(TaskPrefix, c, 5);
    } else {
      NotPrefixAt(TaskPrefix, c, 0);
    }
  }

  /**
   Every column of the vector sits at its schema position: a base column holds
   its engineered value, the chosen one-hot columns hold 1 and every other
   column holds 0. Base columns absent from the schema do not appear at all.
   */
  lemma FeatureVectorColumns(raw: RawInput, schema: seq<string>, i: nat)
    requires ValidInput(raw) && i < |schema|
    ensures |FeatureVector(raw, schema)| == |schema|
    ensures schema[i] in BaseColumns ==> FeatureVector(raw, schema)[i] == BaseFrame(raw)[schema[i]]
    ensures schema[i] == TaskColumn(raw.taskType) || schema[i] == DayColumn(raw.day) ==>
      FeatureVector(raw, schema)[i] == 1.0
    ensures schema[i] !in BaseColumns && schema[i] != TaskColumn(raw.taskType) && schema[i] != DayColumn(raw.day) ==>
      FeatureVector(raw, schema)[i] == 0.0
  {
    if schema[i] in BaseColumns {
      BaseOutsideFields(schema[i]);
    }
  }

  /**
   Within the task-type field the vector is the indicator of the chosen task's
   column, and within the day-of-week field the indicator of the chosen day's
   column: 1 on that column and 0 on every other column of the field.
   */
  lemma OneHotIndicator(raw: RawInput, schema: seq<string>, i: nat)
    requires ValidInput(raw) && i < |schema|
    ensures InTaskField(schema[i]) ==>
      FeatureVector(raw, schema)[i] == if schema[i] == TaskColumn(raw.taskType) then 1.0 else 0.0
    ensures InDayField(schema[i]) ==>
      FeatureVector(raw, schema)[i] == if schema[i] == DayColumn(raw.day) then 1.0 else 0.0
  {
    if schema[i] in BaseColumns {
      BaseOutsideFields(schema[i]);
    }
  }

  /**
   In a schema without repeated columns, at most one task-type column and at
   most one day-of-week column of the vector is 1.
   */
  lemma AtMostOneActive(raw: RawInput, schema: seq<string>, i: nat, j: nat)
    requires ValidInput(raw) && Distinct(schema) && i < |schema| && j < |schema|
    requires FeatureVector(raw, schema)[i] == 1.0 && FeatureVector(raw, schema)[j] == 1.0
    requires (InTaskField(schema[i]) && InTaskField(schema[j])) || (InDayField(schema[i]) && InDayField(schema[j]))
    ensures i == j
  {
    OneHotIndicator(raw, schema, i);
    OneHotIndicator(raw, schema, j);
  }

  /**
   When the chosen task type (or day) is the reference level dropped at
   training, its column is not in the schema and every column of that field
   is 0.
   */
  lemma ReferenceLevelAllZero(raw: RawInput, schema: seq<string>)
    requires ValidInput(raw)
    ensures TaskColumn(raw.taskType) !in schema ==>
      forall i :: 0 <= i < |schema| && InTaskField(schema[i]) ==> FeatureVector(raw, schema)[i] == 0.0
    ensures DayColumn(raw.day) !in schema ==>
      forall i :: 0 <= i < |schema| && InDayField(schema[i]) ==> FeatureVector(raw, schema)[i] == 0.0
  {
    forall i | 0 <= i < |schema|
      ensures InTaskField(schema[i]) && TaskColumn(raw.taskType) !in schema ==> FeatureVector(raw, schema)[i] == 0.0
      ensures InDayField(schema[i]) && DayColumn(raw.day) !in schema ==> FeatureVector(raw, schema)[i] == 0.0
    {
      OneHotIndicator(raw, schema, i);
    }
  }

  /**
   The activation tests membership among the frame's columns, which are the
   schema's plus the base columns; since no one-hot column is a base column,
   this is the same as membership in the schema.
   */
  lemma ActivationTestIsSchemaTest(raw: RawInput, schema: seq<string>)
    requires ValidInput(raw)
    ensures TaskColumn(raw.taskType) in BaseFrame(raw).Keys + (set c | c in schema) <==> TaskColumn(raw.taskType) in schema
    ensures DayColumn(raw.day) in BaseFrame(raw).Keys + (set c | c in schema) <==> DayColumn(raw.day) in schema
  {
    if TaskColumn(raw.taskType) in BaseColumns {
      BaseOutsideFields(TaskColumn(raw.taskType));
    }
    if DayColumn(raw.day) in BaseColumns {
      BaseOutsideFields(DayColumn(raw.day));
    }
  }
}
