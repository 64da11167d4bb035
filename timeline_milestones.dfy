/** The timeline step: duration and start-date setters, a milestone draft that is appended
    when its title is not blank, removal by index, and the total of the milestone weeks. */
module TimelineMilestones {
  import opened Questionnaire
  import opened Lists
  import opened JsString
  import QuestionnaireForm

  /** The slider bounds: months for the project, weeks for a milestone. */
  const MinDurationMonths: int := 1
  const MaxDurationMonths: int := 24
  const MinMilestoneWeeks: int := 1
  const MaxMilestoneWeeks: int := 12

  /** The draft a fresh or just-added milestone box shows. */
  const EmptyDraft: Milestone := Milestone("", 2)

  /** The timeline, the milestone draft and the shared error map. */
  datatype TimelineState = TimelineState(timeline: Timeline, draft: Milestone, errors: Errors)

  /** Delete `key` only when an error is shown under it. */
  function ClearShown(errors: Errors, key: string): (r: Errors)
    ensures !HasError(r, key)
    ensures HasError(errors, key) ==> key !in r
    ensures !HasError(errors, key) ==> r == errors
    ensures OthersKept(errors, r, key)
  {
    if HasError(errors, key) then DeleteKey(errors, key) else errors
  }

  /** `handleDurationChange(value)`, with `value` standing for `value[0]`. */
  function SetDuration(s: TimelineState, months: int): (r: TimelineState)
    ensures r.timeline == s.timeline.(durationMonths := months) && r.draft == s.draft
    ensures r.errors == ClearShown(s.errors, "durationMonths")
  {
    s.(timeline := s.timeline.(durationMonths := months), errors := ClearShown(s.errors, "durationMonths"))
  }

  /** `handleStartDateChange(e)`. */
  function SetStartDate(s: TimelineState, date: string): (r: TimelineState)
    ensures r.timeline == s.timeline.(startDate := date) && r.draft == s.draft
    ensures r.errors == ClearShown(s.errors, "startDate")
  {
    s.(timeline := s.timeline.(startDate := date), errors := ClearShown(s.errors, "startDate"))
  }

  /** `addMilestone()`: the draft is appended with its title as typed, not trimmed. */
  function AddMilestone(s: TimelineState): (r: TimelineState)
    ensures AllWhitespace(s.draft.title) ==> r == s
    ensures !AllWhitespace(s.draft.title) ==>
      && r.timeline == s.timeline.(milestones := s.timeline.milestones + [s.draft])
      && r.draft == EmptyDraft
      && r.errors == s.errors
  {
    TrimEmpty(s.draft.title);
    if Trim(s.draft.title) == "" then s
    else s.(timeline := s.timeline.(milestones := s.timeline.milestones + [s.draft]), draft := EmptyDraft)
  }

  /** `removeMilestone(index)`. */
  function RemoveMilestone(s: TimelineState, index: int): (r: TimelineState)
    ensures 0 <= index < |s.timeline.milestones| ==>
      r.timeline.milestones == s.timeline.milestones[..index] + s.timeline.milestones[index + 1..]
    ensures !(0 <= index < |s.timeline.milestones|) ==> r.timeline.milestones == s.timeline.milestones
    ensures r.timeline == s.timeline.(milestones := r.timeline.milestones)
    ensures r.draft == s.draft && r.errors == s.errors
  {
    s.(timeline := s.timeline.(milestones := RemoveIndex(s.timeline.milestones, index)))
  }

  /** `milestones.reduce((total, m) => total + m.duration, 0)`. */
  function TotalDuration(ms: seq<Milestone>): int {
    if ms == [] then 0 else TotalDuration(ms[..|ms| - 1]) + ms[|ms| - 1].duration
  }

  /** The total over a concatenation is the sum of the totals. */
  lemma {:induction false} TotalDurationAppend(a: seq<Milestone>, b: seq<Milestone>)
    ensures TotalDuration(a + b) == TotalDuration(a) + TotalDuration(b)
  {
    if b == [] {
      assert a + b == a;
    } else {
      TotalDurationAppend(a, b[..|b| - 1]);
      assert (a + b)[..|a + b| - 1] == a + b[..|b| - 1];
    }
  }

  /** Adding a milestone raises the total by its weeks; removing one lowers it by its weeks. */
  lemma TotalTracksEdits(s: TimelineState, index: int)
    ensures !AllWhitespace(s.draft.title) ==>
      TotalDuration(AddMilestone(s).timeline.milestones) == TotalDuration(s.timeline.milestones) + s.draft.duration
    ensures 0 <= index < |s.timeline.milestones| ==>
      TotalDuration(RemoveMilestone(s, index).timeline.milestones)
      == TotalDuration(s.timeline.milestones) - s.timeline.milestones[index].duration
  {
    var ms := s.timeline.milestones;
    TotalDurationAppend(ms, [s.draft]);
    if 0 <= index < |ms| {
      TotalDurationAppend(ms[..index], ms[index + 1..]);
      TotalDurationAppend(ms[..index], [ms[index]]);
      TotalDurationAppend(ms[..index] + [ms[index]], ms[index + 1..]);
      assert ms[..index] + [ms[index]] + ms[index + 1..] == ms;
    }
  }

  /** Slider-built milestones total between one and twelve weeks each. */
  lemma {:induction false} TotalDurationBounds(ms: seq<Milestone>)
    requires forall i :: 0 <= i < |ms| ==> MinMilestoneWeeks <= ms[i].duration <= MaxMilestoneWeeks
    ensures |ms| * MinMilestoneWeeks <= TotalDuration(ms) <= |ms| * MaxMilestoneWeeks
  {
    if ms != [] {
      TotalDurationBounds(ms[..|ms| - 1]);
    }
  }

  /** Any duration the slider offers passes step 5's duration check. */
  lemma SliderDurationPasses(d: QuestionnaireData, s: TimelineState, months: int)
    requires MinDurationMonths <= months <= MaxDurationMonths
    ensures "durationMonths" !in QuestionnaireForm.StepErrors(d.(timeline := SetDuration(s, months).timeline), 5)
  {
    QuestionnaireForm.OtherStepErrors(d.(timeline := SetDuration(s, months).timeline));
  }
}
