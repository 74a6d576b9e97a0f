/**
 * The working data frame of one request and the three steps that reshape it
 * before inference: label-encoding the categorical columns, adding the
 * engineered features the model was trained with, and assembling the feature
 * vector in training order.
 */
module Features {
  import opened Wrappers
  import opened Inputs

  /** One cell of the single-row frame: a number, or a category still in text form. */
  datatype Cell = Num(x: real) | Text(t: string)

  /** The row of the frame, keyed by column name. */
  type Frame = map<string, Cell>

  /** A fitted label encoder: the code of each category seen in training. */
  type LabelTable = map<string, int>

  const HoursStudied := "Hours_Studied"
  const Attendance := "Attendance"
  const ParentalInvolvement := "Parental_Involvement"
  const AccessToResources := "Access_to_Resources"
  const SleepHours := "Sleep_Hours"
  const PreviousScores := "Previous_Scores"
  const TutoringSessions := "Tutoring_Sessions"
  const FamilyIncome := "Family_Income"
  const ParentalEducationLevel := "Parental_Education_Level"
  const InternetAccessColumn := "Internet_Access"
  const PhysicalActivity := "Physical_Activity"

  const StudyEfficiency := "Study_Efficiency"
  const SupportSystemScore := "Support_System_Score"
  const WellbeingScore := "Wellbeing_Score"

  /** The columns the handler passes through their label encoders, in loop order. */
  const CategoricalColumns: seq<string> := [
    ParentalInvolvement, AccessToResources, FamilyIncome, ParentalEducationLevel, InternetAccessColumn]

  const NumericColumns: seq<string> := [
    HoursStudied, Attendance, SleepHours, PreviousScores, TutoringSessions, PhysicalActivity]

  /** The engineered features, each computed only when the model was trained with it. */
  const ComposedFeatures: seq<string> := [StudyEfficiency, SupportSystemScore, WellbeingScore]

  /** The frame built from a request body, before any encoding. */
  function InitialFrame(s: StudentInput): Frame {
    map[
      HoursStudied := Num(s.hoursStudied),
      Attendance := Num(s.attendance),
      ParentalInvolvement := Text(LevelText(s.parentalInvolvement)),
      AccessToResources := Text(LevelText(s.accessToResources)),
      SleepHours := Num(s.sleepHours),
      PreviousScores := Num(s.previousScores),
      TutoringSessions := Num(s.tutoringSessions),
      FamilyIncome := Text(LevelText(s.familyIncome)),
      ParentalEducationLevel := Text(EducationText(s.parentalEducationLevel)),
      InternetAccessColumn := Text(InternetText(s.internetAccess)),
      PhysicalActivity := Num(s.physicalActivity)]
  }

  /** The request frame holds text exactly in the categorical columns. */
  lemma {:induction false} InitialCell(s: StudentInput, c: string)
    requires c in InitialFrame(s)
    ensures InitialFrame(s)[c].Text? <==> c in CategoricalColumns
  {
    if c in CategoricalColumns {
      assert c == ParentalInvolvement || c == AccessToResources || c == FamilyIncome
          || c == ParentalEducationLevel || c == InternetAccessColumn;
    } else {
      assert c == HoursStudied || c == Attendance || c == SleepHours || c == PreviousScores
          || c == TutoringSessions || c == PhysicalActivity;
    }
  }

  /**
   * What an encoder makes of a cell: the code of a category seen in training,
   * otherwise 0 (the encoder refuses the value and the handler substitutes 0).
   * A number is never among the text categories, so it is unseen as well.
   */
  function LabelCode(table: LabelTable, c: Cell): int {
    match c
    case Text(v) => if v in table then table[v] else 0
    case Num(_) => 0
  }

  /** The frame after encoding the given columns, each one that has an encoder. */
  function EncodedColumns(frame: Frame, encoders: map<string, LabelTable>, columns: seq<string>): Frame {
    map k | k in frame :: if k in columns && k in encoders then Num(LabelCode(encoders[k], frame[k]) as real) else frame[k]
  }

  function Encoded(frame: Frame, encoders: map<string, LabelTable>): Frame {
    EncodedColumns(frame, encoders, CategoricalColumns)
  }

  /**
   * The encoding loop: every categorical column that is in the frame and has
   * an encoder is overwritten by its code, or by 0 when its value is unseen;
   * every other column keeps its cell, and no column is added or dropped.
   */
  method EncodeCategoricals(frame: Frame, encoders: map<string, LabelTable>) returns (encoded: Frame)
    ensures encoded == Encoded(frame, encoders)
    ensures encoded.Keys == frame.Keys
    ensures forall k :: k in frame && k in CategoricalColumns && k in encoders && frame[k].Text? && frame[k].t in encoders[k] ==>
              encoded[k] == Num(encoders[k][frame[k].t] as real)
    ensures forall k :: k in frame && k in CategoricalColumns && k in encoders && !(frame[k].Text? && frame[k].t in encoders[k]) ==>
              encoded[k] == Num(0.0)
    ensures forall k :: k in frame && !(k in CategoricalColumns && k in encoders) ==> encoded[k] == frame[k]
  {
    encoded := frame;
    var i := 0;
    while i < |CategoricalColumns|
      invariant 0 <= i <= |CategoricalColumns|
      invariant encoded == EncodedColumns(frame, encoders, CategoricalColumns[..i])
    {
      var column := CategoricalColumns[i];
      EncodeStep(frame, encoders, i);
      if column in encoders && column in encoded {
        encoded := encoded[column := Num(LabelCode(encoders[column], encoded[column]) as real)];
      }
      i := i + 1;
    }
    assert CategoricalColumns[..i] == CategoricalColumns;
  }

  /** Encoding column i of the loop on top of the columns before it. */
  lemma EncodeStep(frame: Frame, encoders: map<string, LabelTable>, i: nat)
    requires i < |CategoricalColumns|
    ensures var prev := EncodedColumns(frame, encoders, CategoricalColumns[..i]);
            var column := CategoricalColumns[i];
            EncodedColumns(frame, encoders, CategoricalColumns[..i + 1])
            == if column in encoders && column in prev
               then prev[column := Num(LabelCode(encoders[column], prev[column]) as real)]
               else prev
  {
    var column := CategoricalColumns[i];
    assert CategoricalColumns[..i + 1] == CategoricalColumns[..i] + [column];
    assert column !in CategoricalColumns[..i];
  }

  /** The four numeric columns the engineered features read, with attendance non-negative. */
  predicate ComposableFrame(frame: Frame) {
    && HoursStudied in frame && frame[HoursStudied].Num?
    && Attendance in frame && frame[Attendance].Num? && frame[Attendance].x >= 0.0
    && SleepHours in frame && frame[SleepHours].Num?
    && PhysicalActivity in frame && frame[PhysicalActivity].Num?
  }

  /** A column's contribution to the support sum: absent counts 0, text cannot be added. */
  function SupportTerm(frame: Frame, column: string): Option<real> {
    if column !in frame then Some(0.0)
    else match frame[column]
      case Num(x) => Some(x)
      case Text(_) => None
  }

  /** Parental involvement plus tutoring sessions plus access to resources, if all are numbers. */
  function SupportScore(frame: Frame): (r: Option<real>)
    ensures r.Some? <==>
              (ParentalInvolvement in frame ==> frame[ParentalInvolvement].Num?) &&
              (TutoringSessions in frame ==> frame[TutoringSessions].Num?) &&
              (AccessToResources in frame ==> frame[AccessToResources].Num?)
  {
    var pi := SupportTerm(frame, ParentalInvolvement);
    var ts := SupportTerm(frame, TutoringSessions);
    var ar := SupportTerm(frame, AccessToResources);
    if pi.Some? && ts.Some? && ar.Some? then Some(pi.value + ts.value + ar.value) else None
  }

  /**
   * Feature composition: each engineered feature is written into the frame
   * exactly when its name is one of the training feature names, with its
   * formula; the only failure is a support sum that meets a category left in
   * text form; every other column is left as it was.
   */
  function Composed(frame: Frame, featureNames: seq<string>): (r: Option<Frame>)
    requires ComposableFrame(frame)
    ensures r.None? <==> SupportSystemScore in featureNames && SupportScore(frame).None?
    ensures r.Some? ==> r.value.Keys == frame.Keys + (set c | c in ComposedFeatures && c in featureNames)
    ensures r.Some? ==> forall k :: k in frame && k !in ComposedFeatures ==> r.value[k] == frame[k]
    ensures r.Some? && StudyEfficiency in featureNames ==>
              r.value[StudyEfficiency] == Num(frame[HoursStudied].x / (frame[Attendance].x + 1.0))
    ensures r.Some? && SupportSystemScore in featureNames ==> r.value[SupportSystemScore] == Num(SupportScore(frame).value)
    ensures r.Some? && WellbeingScore in featureNames ==>
              r.value[WellbeingScore] == Num(frame[SleepHours].x + frame[PhysicalActivity].x)
  {
    var f1 :=
      if StudyEfficiency in featureNames
      then frame[StudyEfficiency := Num(frame[HoursStudied].x / (frame[Attendance].x + 1.0))]
      else frame;
    var support := SupportScore(f1);
    assert support == SupportScore(frame) by {
      assert forall c :: c != StudyEfficiency ==> SupportTerm(f1, c) == SupportTerm(frame, c);
    }
    if SupportSystemScore in featureNames && support.None? then None
    else
      var f2 := if SupportSystemScore in featureNames then f1[SupportSystemScore := Num(support.value)] else f1;
      Some(if WellbeingScore in featureNames
           then f2[WellbeingScore := Num(f2[SleepHours].x + f2[PhysicalActivity].x)]
           else f2)
  }

  /** The handler's composition step, overwriting the frame feature by feature. */
  method ComposeFeatures(frame: Frame, featureNames: seq<string>) returns (r: Option<Frame>)
    requires ComposableFrame(frame)
    ensures r == Composed(frame, featureNames)
  {
    var working := frame;
    if StudyEfficiency in featureNames {
      var efficiency := working[HoursStudied].x / (working[Attendance].x + 1.0);
      working := working[StudyEfficiency := Num(efficiency)];
    }
    assert SupportScore(working) == SupportScore(frame) by {
      assert forall c :: c != StudyEfficiency ==> SupportTerm(working, c) == SupportTerm(frame, c);
    }
    if SupportSystemScore in featureNames {
      var supportScore := SupportScore(working);
      if supportScore.None? {
        return None;
      }
      working := working[SupportSystemScore := Num(supportScore.value)];
    }
    if WellbeingScore in featureNames {
      var wellbeing := working[SleepHours].x + working[PhysicalActivity].x;
      working := working[WellbeingScore := Num(wellbeing)];
    }
    r := Some(working);
  }

  /** The cell a feature name contributes to the vector: the frame's cell, or 0.0 when missing. */
  function FeatureCell(frame: Frame, name: string): Cell {
    if name in frame then frame[name] else Num(0.0)
  }

  function Assembled(frame: Frame, featureNames: seq<string>): seq<Cell> {
    seq(|featureNames|, i requires 0 <= i < |featureNames| => FeatureCell(frame, featureNames[i]))
  }

  /**
   * Vector assembly: one entry per training feature name, in the same order;
   * entry i is the frame's value for name i, or 0.0 when the frame lacks it.
   */
  method AssembleFeatures(frame: Frame, featureNames: seq<string>) returns (features: seq<Cell>)
    ensures features == Assembled(frame, featureNames)
    ensures |features| == |featureNames|
    ensures forall i :: 0 <= i < |featureNames| && featureNames[i] in frame ==> features[i] == frame[featureNames[i]]
    ensures forall i :: 0 <= i < |featureNames| && featureNames[i] !in frame ==> features[i] == Num(0.0)
  {
    features := [];
    for i := 0 to |featureNames|
      invariant |features| == i
      invariant forall j :: 0 <= j < i ==> features[j] == FeatureCell(frame, featureNames[j])
    {
      var name := featureNames[i];
      if name in frame {
        features := features + [frame[name]];
      } else {
        features := features + [Num(0.0)];
      }
    }
  }

  /**
   * The numeric array handed to the scaler, or None when some entry is still
   * text, which the scaler refuses.
   */
  function AsNumbers(cells: seq<Cell>): (r: Option<seq<real>>)
    ensures r.Some? <==> forall i :: 0 <= i < |cells| ==> cells[i].Num?
    ensures r.Some? ==> |r.value| == |cells| && forall i :: 0 <= i < |cells| ==> r.value[i] == cells[i].x
    decreases |cells|
  {
    if cells == [] then Some([])
    else
      match cells[0]
      case Text(_) => None
      case Num(x) =>
        var rest := AsNumbers(cells[1..]);
        if rest.None? then None else Some([x] + rest.value)
  }
}
