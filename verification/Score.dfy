/** Scoring over the reals: four axes in [0,1], blended into a rank. */
module Scoring {
  import opened Options
  import opened Items

  function Min(a: real, b: real): real { if a < b then a else b }

  function Max(a: real, b: real): real { if a < b then b else a }

  const W_RELEVANCE := 0.35
  const W_URGENCY := 0.30
  const W_IMPACT := 0.20
  const W_ENGAGEMENT := 0.15

  function ClampUnit(f: real): real { Max(0.0, Min(1.0, f)) }

  function ClampMult(f: real): real { Max(0.0, Min(2.0, f)) }

  function Saturate(x: real, k: real): real
    requires k > 0.0
  {
    if x <= 0.0 then 0.0 else x / (x + k)
  }

  // -------------------------------------------------------------------------
  // Relevance
  // -------------------------------------------------------------------------

  function ReasonWeight(r: Reason): real {
    match r
    case ReviewRequested => 1.0
    case Assignee => 0.9
    case Codeowner => 0.8
    case Author => 0.6
    case Commented => 0.5
    case Mentioned => 0.5
    case TeamMentioned => 0.4
    case OtherReason(_) => 0.0
  }

  /** The strongest reason's weight, 0 for none. */
  function BestReason(reasons: seq<Reason>): real {
    if reasons == [] then 0.0 else Max(BestReason(reasons[..|reasons| - 1]), ReasonWeight(reasons[|reasons| - 1]))
  }

  function Relevance(s: Signals): real {
    var best := BestReason(s.reasons);
    if best == 0.0 then 0.0
    else if |s.reasons| > 1 then Min(1.0, best + 0.05 * (|s.reasons| - 1) as real)
    else best
  }

  method RelevanceScore(s: Signals) returns (best: real)
    ensures best == Relevance(s)
  {
    best := 0.0;
    for i := 0 to |s.reasons|
      invariant best == BestReason(s.reasons[..i]) && best >= 0.0
    {
      assert s.reasons[..i + 1][..i] == s.reasons[..i];
      var w := ReasonWeight(s.reasons[i]);
      if w > best {
        best := w;
      }
    }
    assert s.reasons[..|s.reasons|] == s.reasons;
    if best == 0.0 {
      return 0.0;
    }
    var n := |s.reasons|;
    if n > 1 {
      best := Min(1.0, best + 0.05 * (n - 1) as real);
    }
  }

  // -------------------------------------------------------------------------
  // Urgency
  // -------------------------------------------------------------------------

  const MAX_DURATION := 0x7FFF_FFFF_FFFF_FFFF
  const NANOS_PER_DAY := 86_400_000_000_000.0

  /** time.Time.Sub, which saturates at the ends of int64 nanoseconds. */
  function Sub(a: int, b: int): int {
    var d := a - b;
    if d > MAX_DURATION then MAX_DURATION else if d < -MAX_DURATION - 1 then -MAX_DURATION - 1 else d
  }

  function Days(d: int): real { d as real / NANOS_PER_DAY }

  function DeadlineUrgency(due: int, now: int): real {
    var d := Days(Sub(due, now));
    if d <= 0.0 then 1.0 else if d >= 30.0 then 0.0 else 1.0 - d / 30.0
  }

  /** The ask on the user, ramping as it ages. */
  function AskUrgency(since: int, now: int): real {
    if since == 0 then 0.0 else Max(0.0, Min(1.0, 0.6 + 0.1 * Days(Sub(now, since))))
  }

  /** The strongest of the outstanding ask, a review request and the deadline. */
  function Urgency(s: Signals, now: int): real {
    Max(Max(AskUrgency(s.awaitingMeSince, now), if ReviewRequested in s.reasons then 0.6 else 0.0),
        if s.deadlineAt != 0 then DeadlineUrgency(s.deadlineAt, now) else 0.0)
  }

  method UrgencyScore(s: Signals, now: int) returns (urg: real)
    ensures urg == Urgency(s, now)
  {
    hide Days, Sub;
    urg := 0.0;
    if s.awaitingMeSince != 0 {
      var u := Min(1.0, 0.6 + 0.1 * Days(Sub(now, s.awaitingMeSince)));
      if u > urg {
        urg := u;
      }
    }
    if ReviewRequested in s.reasons && urg < 0.6 {
      urg := 0.6;
    }
    if s.deadlineAt != 0 {
      var u := DeadlineUrgency(s.deadlineAt, now);
      if u > 0.0 {
        if u > urg {
          urg := u;
        }
      }
    }
  }

  // -------------------------------------------------------------------------
  // Engagement and impact
  // -------------------------------------------------------------------------

  function Engagement(s: Signals): real {
    Min(1.0,
      0.4 * Saturate(s.comments as real, 10.0) + 0.3 * Saturate(s.participants as real, 8.0)
      + 0.15 * Saturate(s.reactions as real, 20.0) + 0.15 * Saturate(s.commentVelocity, 5.0))
  }

  /**
   * Lower-casing one letter, as far as an ASCII pattern can tell: besides A to Z only the dotted capital I
   * and the Kelvin sign have a lower-case form in ASCII.
   */
  function Lower(c: char): char {
    if 'A' <= c <= 'Z' then (c as int + 32) as char
    else if c as int == 0x130 then 'i'
    else if c as int == 0x212A then 'k'
    else c
  }

  function ToLower(s: string): string {
    if s == "" then "" else [Lower(s[0])] + ToLower(s[1..])
  }

  predicate HasPrefix(s: string, p: string) { p <= s }

  predicate Contains(s: string, p: string) { exists i :: 0 <= i <= |s| && p <= s[i..] }

  function LabelImpact(name: string): real {
    var l := ToLower(name);
    if Contains(l, "security") || Contains(l, "vuln") then 1.0
    else if Contains(l, "release-blocker") || Contains(l, "critical") then 0.9
    else if HasPrefix(l, "priority/p0") || HasPrefix(l, "priority/p1") || Contains(l, "priority/important") then 0.75
    else if HasPrefix(l, "kind/bug") then 0.6
    else 0.0
  }

  function BestLabel(labels: seq<string>): real {
    if labels == [] then 0.0 else Max(BestLabel(labels[..|labels| - 1]), LabelImpact(labels[|labels| - 1]))
  }

  /** The strongest of labels, repository tier and hub centrality. */
  function Impact(s: Signals): real {
    Max(Max(BestLabel(s.labels), if s.repoTier > 0 then Min(1.0, s.repoTier as real / 3.0) else 0.0),
        if s.inboundRefs > 0 then Saturate(s.inboundRefs as real, 5.0) else 0.0)
  }

  method ImpactScore(s: Signals) returns (imp: real)
    ensures imp == Impact(s)
  {
    hide LabelImpact;
    imp := 0.0;
    for i := 0 to |s.labels|
      invariant imp == BestLabel(s.labels[..i]) && imp >= 0.0
    {
      assert s.labels[..i + 1][..i] == s.labels[..i];
      var w := LabelImpact(s.labels[i]);
      if w > imp {
        imp := w;
      }
    }
    assert s.labels[..|s.labels|] == s.labels;
    if s.repoTier > 0 {
      var t := Min(1.0, s.repoTier as real / 3.0);
      if t > imp {
        imp := t;
      }
    }
    if s.inboundRefs > 0 {
      var r := Saturate(s.inboundRefs as real, 5.0);
      if r > imp {
        imp := r;
      }
    }
  }

  // -------------------------------------------------------------------------
  // The blend
  // -------------------------------------------------------------------------

  datatype Axes = Axes(relevance: real, impact: real, engagement: real, urgency: real)

  function Baseline(s: Signals, now: int): Axes { Axes(Relevance(s), Impact(s), Engagement(s), Urgency(s, now)) }

  function Foundation(s: Signals, now: int): Axes {
    match s.proposed
    case None => Baseline(s, now)
    case Some(p) => Axes(ClampUnit(p.relevance), ClampUnit(p.impact), ClampUnit(p.engagement), ClampUnit(p.urgency))
  }

  function Times(a: real, b: real): real { a * b }

  function Scaled(axis: real, mult: real): real { ClampUnit(Times(axis, ClampMult(mult))) }

  function Adjusted(a: Axes, r: Research): Axes {
    Axes(Scaled(a.relevance, r.relevance), Scaled(a.impact, r.impact), Scaled(a.engagement, r.engagement), Scaled(a.urgency, r.urgency))
  }

  function AxesOf(s: Signals, now: int): Axes {
    match s.research
    case None => Foundation(s, now)
    case Some(r) => Adjusted(Foundation(s, now), r)
  }

  function Blend(a: Axes): real {
    W_RELEVANCE * a.relevance + W_URGENCY * a.urgency + W_IMPACT * a.impact + W_ENGAGEMENT * a.engagement
  }

  function Rank(s: Signals, now: int): real { Blend(AxesOf(s, now)) }

  function Band(rank: real): Priority {
    if rank >= 0.66 then PriorityHigh
    else if rank >= 0.33 then PriorityMedium
    else if rank > 0.0 then PriorityLow
    else PriorityNone
  }

  function PriorityWeight(p: Priority): int {
    match p
    case PriorityHigh => 3
    case PriorityMedium => 2
    case PriorityLow => 1
    case PriorityNone => 0
  }

  /** Score: fresh metadata, the origin kept, the timestamps the caller owns unset. */
  function Score(item: WorkItem, now: int): Metadata {
    var a := AxesOf(item.signals, now);
    Metadata(a.relevance, a.impact, a.engagement, a.urgency, Blend(a), Band(Blend(a)), item.meta.origin, now, 0, 0, 0)
  }

  method ComputeScore(item: WorkItem, now: int) returns (m: Metadata)
    ensures m == Score(item, now)
  {
    hide Relevance, Urgency, Impact, Engagement, ClampUnit, ClampMult, Scaled, Blend, Band;
    var rel := RelevanceScore(item.signals);
    var urg := UrgencyScore(item.signals, now);
    var eng := Engagement(item.signals);
    var imp := ImpactScore(item.signals);
    if item.signals.proposed.Some? {
      var p := item.signals.proposed.value;
      rel, imp, eng, urg := ClampUnit(p.relevance), ClampUnit(p.impact), ClampUnit(p.engagement), ClampUnit(p.urgency);
    }
    if item.signals.research.Some? {
      var r := item.signals.research.value;
      rel := Scaled(rel, r.relevance);
      imp := Scaled(imp, r.impact);
      eng := Scaled(eng, r.engagement);
      urg := Scaled(urg, r.urgency);
    }
    var rank := Blend(Axes(rel, imp, eng, urg));
    m := Metadata(rel, imp, eng, urg, rank, Band(rank), item.meta.origin, now, 0, 0, 0);
  }

  // -------------------------------------------------------------------------
  // Bounds
  // -------------------------------------------------------------------------

  predicate Unit(x: real) { 0.0 <= x <= 1.0 }

  lemma {:induction false} BestReasonUnit(reasons: seq<Reason>)
    ensures Unit(BestReason(reasons))
  {
    if reasons != [] {
      BestReasonUnit(reasons[..|reasons| - 1]);
    }
  }

  lemma {:induction false} BestLabelUnit(labels: seq<string>)
    ensures Unit(BestLabel(labels))
  {
    hide Contains, ToLower;
    if labels != [] {
      BestLabelUnit(labels[..|labels| - 1]);
    }
  }

  lemma SaturateUnit(x: real, k: real)
    requires k > 0.0
    ensures 0.0 <= Saturate(x, k) < 1.0
  {
  }

  lemma DeadlineUnit(due: int, now: int)
    ensures Unit(DeadlineUrgency(due, now))
  {
    hide Days, Sub;
  }

  lemma BaselineUnit(s: Signals, now: int)
    ensures Unit(Relevance(s)) && Unit(Impact(s)) && Unit(Engagement(s)) && Unit(Urgency(s, now))
  {
    BestReasonUnit(s.reasons);
    BestLabelUnit(s.labels);
    SaturateUnit(s.comments as real, 10.0);
    SaturateUnit(s.participants as real, 8.0);
    SaturateUnit(s.reactions as real, 20.0);
    SaturateUnit(s.commentVelocity, 5.0);
    SaturateUnit(s.inboundRefs as real, 5.0);
    DeadlineUnit(s.deadlineAt, now);
    hide BestReason, BestLabel, Saturate, DeadlineUrgency, Days, Sub;
  }

  predicate UnitAxes(a: Axes) { Unit(a.relevance) && Unit(a.impact) && Unit(a.engagement) && Unit(a.urgency) }

  lemma FoundationUnit(s: Signals, now: int)
    ensures UnitAxes(Foundation(s, now))
  {
    BaselineUnit(s, now);
    hide Relevance, Impact, Engagement, Urgency;
  }

  /** Every axis and the rank lie in [0,1], whatever the signals, the proposal and the research say. */
  lemma ScoreInUnit(item: WorkItem, now: int)
    ensures var m := Score(item, now);
      Unit(m.relevance) && Unit(m.impact) && Unit(m.engagement) && Unit(m.urgency) && Unit(m.rank)
  {
    FoundationUnit(item.signals, now);
    hide Foundation;
  }

  // -------------------------------------------------------------------------
  // The strongest wins
  // -------------------------------------------------------------------------

  /** BestReason is the largest weight among the reasons, or 0. */
  lemma {:induction false} BestReasonMeaning(reasons: seq<Reason>)
    ensures forall r :: r in reasons ==> ReasonWeight(r) <= BestReason(reasons)
    ensures BestReason(reasons) == 0.0 || exists r :: r in reasons && ReasonWeight(r) == BestReason(reasons)
  {
    hide ReasonWeight;
    if reasons != [] {
      BestReasonMeaning(reasons[..|reasons| - 1]);
      assert reasons == reasons[..|reasons| - 1] + [reasons[|reasons| - 1]];
    }
  }

  /** BestLabel is the largest weight among the labels, or 0. */
  lemma {:induction false} BestLabelMeaning(labels: seq<string>)
    ensures forall l :: l in labels ==> LabelImpact(l) <= BestLabel(labels)
    ensures BestLabel(labels) == 0.0 || exists l :: l in labels && LabelImpact(l) == BestLabel(labels)
  {
    hide LabelImpact;
    if labels != [] {
      BestLabelMeaning(labels[..|labels| - 1]);
      assert labels == labels[..|labels| - 1] + [labels[|labels| - 1]];
    }
  }

  // -------------------------------------------------------------------------
  // The scores written out
  // -------------------------------------------------------------------------

  /** `x` brought between `lo` and `hi`. */
  function Within(x: real, lo: real, hi: real): real { if x < lo then lo else if x > hi then hi else x }

  /** An axis re-weighted by a multiplier between 0 and 2. */
  function Reweighed(axis: real, multiplier: real): real { Within(Times(axis, Within(multiplier, 0.0, 2.0)), 0.0, 1.0) }

  /** An axis from its baseline, its own proposal and its own research multiplier. */
  function Axis(baseline: real, proposed: Option<real>, multiplier: Option<real>): real {
    var foundation := if proposed.Some? then Within(proposed.value, 0.0, 1.0) else baseline;
    if multiplier.Some? then Reweighed(foundation, multiplier.value) else foundation
  }

  function Of<T>(o: Option<T>, f: T -> real): Option<real> { if o.Some? then Some(f(o.value)) else None }

  lemma ClampWritten(x: real)
    ensures ClampUnit(x) == Within(x, 0.0, 1.0)
  {
  }

  lemma ClampMultWritten(x: real)
    ensures ClampMult(x) == Within(x, 0.0, 2.0)
  {
  }

  lemma ScaledWritten(a: real, m: real)
    ensures Scaled(a, m) == Reweighed(a, m)
  {
    ClampMultWritten(m);
    ClampWritten(Times(a, ClampMult(m)));
    hide ClampMult, ClampUnit, Within;
  }

  /** One axis, whatever of proposal and research there is. */
  lemma AxisWritten(baseline: real, proposed: Option<real>, multiplier: Option<real>)
    ensures var foundation := if proposed.Some? then ClampUnit(proposed.value) else baseline;
      Axis(baseline, proposed, multiplier) == if multiplier.Some? then Scaled(foundation, multiplier.value) else foundation
  {
    hide Within, Scaled, ClampUnit, Reweighed;
    var foundation := if proposed.Some? then ClampUnit(proposed.value) else baseline;
    if proposed.Some? {
      ClampWritten(proposed.value);
    }
    if multiplier.Some? {
      ScaledWritten(foundation, multiplier.value);
    }
  }

  lemma AxesWritten(s: Signals, now: int)
    ensures var a := AxesOf(s, now);
      && a.relevance == Axis(Relevance(s), Of(s.proposed, (p: AxisProposal) => p.relevance), Of(s.research, (r: Research) => r.relevance))
      && a.impact == Axis(Impact(s), Of(s.proposed, (p: AxisProposal) => p.impact), Of(s.research, (r: Research) => r.impact))
      && a.engagement == Axis(Engagement(s), Of(s.proposed, (p: AxisProposal) => p.engagement), Of(s.research, (r: Research) => r.engagement))
      && a.urgency == Axis(Urgency(s, now), Of(s.proposed, (p: AxisProposal) => p.urgency), Of(s.research, (r: Research) => r.urgency))
  {
    hide ClampUnit, Scaled, Axis, Relevance, Urgency, Impact, Engagement;
    var p, r := s.proposed, s.research;
    AxisWritten(Relevance(s), Of(p, (p: AxisProposal) => p.relevance), Of(r, (r: Research) => r.relevance));
    AxisWritten(Impact(s), Of(p, (p: AxisProposal) => p.impact), Of(r, (r: Research) => r.impact));
    AxisWritten(Engagement(s), Of(p, (p: AxisProposal) => p.engagement), Of(r, (r: Research) => r.engagement));
    AxisWritten(Urgency(s, now), Of(p, (p: AxisProposal) => p.urgency), Of(r, (r: Research) => r.urgency));
  }

  /** Each axis comes from its own baseline, proposal and multiplier; the rank is the weighted sum of the four, banded. */
  lemma ScoreWritten(item: WorkItem, now: int)
    ensures var s, m := item.signals, Score(item, now);
      && m.relevance == Axis(Relevance(s), Of(s.proposed, (p: AxisProposal) => p.relevance), Of(s.research, (r: Research) => r.relevance))
      && m.impact == Axis(Impact(s), Of(s.proposed, (p: AxisProposal) => p.impact), Of(s.research, (r: Research) => r.impact))
      && m.engagement == Axis(Engagement(s), Of(s.proposed, (p: AxisProposal) => p.engagement), Of(s.research, (r: Research) => r.engagement))
      && m.urgency == Axis(Urgency(s, now), Of(s.proposed, (p: AxisProposal) => p.urgency), Of(s.research, (r: Research) => r.urgency))
      && m.rank == 0.35 * m.relevance + 0.30 * m.urgency + 0.20 * m.impact + 0.15 * m.engagement
      && m.priority == (if m.rank >= 0.66 then PriorityHigh else if m.rank >= 0.33 then PriorityMedium
                        else if m.rank > 0.0 then PriorityLow else PriorityNone)
      && m.origin == item.meta.origin && m.scoredAt == now && m.updatedAt == m.hiddenAt == m.completedAt == 0
  {
    hide AxesOf, Axis, Of, Relevance, Urgency, Impact, Engagement;
    AxesWritten(item.signals, now);
  }

  /** Relevance is decided by the first of these reasons that is present, and 0.05 more for each further reason. */
  lemma RelevanceWritten(s: Signals)
    ensures var base :=
        if ReviewRequested in s.reasons then 1.0
        else if Assignee in s.reasons then 0.9
        else if Codeowner in s.reasons then 0.8
        else if Author in s.reasons then 0.6
        else if Commented in s.reasons || Mentioned in s.reasons then 0.5
        else if TeamMentioned in s.reasons then 0.4
        else 0.0;
      && (base == 0.0 ==> Relevance(s) == 0.0)
      && (base > 0.0 ==> s.reasons != [] && Relevance(s) == Within(base + 0.05 * (|s.reasons| - 1) as real, 0.0, 1.0))
  {
    BestReasonMeaning(s.reasons);
    BestReasonUnit(s.reasons);
    hide BestReason;
  }

  /** Urgency is the largest of a day-by-day ramp since the ask, 0.6 for a review request, and the deadline's ramp; 0 without any. */
  lemma UrgencyWritten(s: Signals, now: int)
    ensures var asked := 0.6 + 0.1 * ((now - s.awaitingMeSince) as real / 86_400_000_000_000.0);
      var left := (s.deadlineAt - now) as real / 86_400_000_000_000.0;
      var ask := if s.awaitingMeSince != 0 then Within(asked, 0.0, 1.0) else 0.0;
      var request := if ReviewRequested in s.reasons then 0.6 else 0.0;
      var deadline := if s.deadlineAt != 0 then 1.0 - Within(left, 0.0, 30.0) / 30.0 else 0.0;
      && Urgency(s, now) >= ask && Urgency(s, now) >= request && Urgency(s, now) >= deadline
      && (Urgency(s, now) == ask || Urgency(s, now) == request || Urgency(s, now) == deadline)
  {
  }

  lemma SaturateWritten(x: real, k: real)
    requires x >= 0.0 && k > 0.0
    ensures Saturate(x, k) == x / (x + k) && 0.0 <= Saturate(x, k) < 1.0
  {
  }

  /** Engagement weighs four counts, each saturating at its own half-way point. */
  lemma EngagementWritten(s: Signals)
    requires s.comments >= 0 && s.participants >= 0 && s.reactions >= 0 && s.commentVelocity >= 0.0
    ensures var c, p, r, v := s.comments as real, s.participants as real, s.reactions as real, s.commentVelocity;
      Engagement(s) == 0.4 * (c / (c + 10.0)) + 0.3 * (p / (p + 8.0)) + 0.15 * (r / (r + 20.0)) + 0.15 * (v / (v + 5.0))
  {
    SaturateWritten(s.comments as real, 10.0);
    SaturateWritten(s.participants as real, 8.0);
    SaturateWritten(s.reactions as real, 20.0);
    SaturateWritten(s.commentVelocity, 5.0);
    hide Saturate;
  }

  /** Impact is the largest of the labels' weights, a third per repository tier up to 1, and the saturating references; 0 without any. */
  lemma ImpactWritten(s: Signals)
    ensures var tier := if s.repoTier > 0 then Within(s.repoTier as real / 3.0, 0.0, 1.0) else 0.0;
      var refs := if s.inboundRefs > 0 then s.inboundRefs as real / (s.inboundRefs as real + 5.0) else 0.0;
      && Impact(s) >= tier && Impact(s) >= refs && (forall l :: l in s.labels ==> Impact(s) >= LabelImpact(l))
      && (Impact(s) == tier || Impact(s) == refs || exists l :: l in s.labels && Impact(s) == LabelImpact(l))
  {
    BestLabelMeaning(s.labels);
    BestLabelUnit(s.labels);
    if s.inboundRefs > 0 {
      SaturateWritten(s.inboundRefs as real, 5.0);
    }
    hide LabelImpact, BestLabel, Saturate;
  }

  /** `p` occurs somewhere in `s`. */
  ghost predicate Occurs(p: string, s: string) { exists a: string, b: string :: s == a + p + b }

  lemma ContainsMeaning(s: string, p: string)
    ensures Contains(s, p) <==> Occurs(p, s)
  {
    if Contains(s, p) {
      var i :| 0 <= i <= |s| && p <= s[i..];
      assert s == s[..i] + p + s[i + |p|..];
    }
    if Occurs(p, s) {
      var a: string, b: string :| s == a + p + b;
      assert s[|a|..] == p + b;
    }
  }

  /** A label's weight, from the words in its lower-case form. */
  lemma LabelWritten(name: string)
    ensures var l := ToLower(name);
      LabelImpact(name) ==
        if Occurs("security", l) || Occurs("vuln", l) then 1.0
        else if Occurs("release-blocker", l) || Occurs("critical", l) then 0.9
        else if "priority/p0" <= l || "priority/p1" <= l || Occurs("priority/important", l) then 0.75
        else if "kind/bug" <= l then 0.6
        else 0.0
  {
    var l := ToLower(name);
    ContainsMeaning(l, "security");
    ContainsMeaning(l, "vuln");
    ContainsMeaning(l, "release-blocker");
    ContainsMeaning(l, "critical");
    ContainsMeaning(l, "priority/important");
    hide Contains, Occurs, ToLower;
  }

  /** Lower-casing goes letter by letter. */
  lemma {:induction false} LowerWritten(s: string)
    ensures |ToLower(s)| == |s|
    ensures forall i :: 0 <= i < |s| ==>
      ToLower(s)[i] == (if 'A' <= s[i] <= 'Z' then (s[i] as int + 32) as char
                        else if s[i] as int == 0x130 then 'i' else if s[i] as int == 0x212A then 'k' else s[i])
  {
    if s != "" {
      LowerWritten(s[1..]);
    }
  }

  // -------------------------------------------------------------------------
  // Time only raises the rank
  // -------------------------------------------------------------------------

  lemma DaysMonotone(a: int, b: int)
    requires a <= b
    ensures Days(a) <= Days(b)
  {
  }

  lemma UrgencyMonotone(s: Signals, earlier: int, later: int)
    requires earlier <= later
    ensures Urgency(s, earlier) <= Urgency(s, later)
  {
    DaysMonotone(Sub(earlier, s.awaitingMeSince), Sub(later, s.awaitingMeSince));
    DaysMonotone(Sub(s.deadlineAt, later), Sub(s.deadlineAt, earlier));
    hide Days, Sub;
  }

  lemma TimesNonNegative(a: real, k: real)
    requires a >= 0.0 && k >= 0.0
    ensures Times(a, k) >= 0.0
  {
  }

  lemma TimesDifference(a: real, b: real, k: real)
    ensures Times(b - a, k) == Times(b, k) - Times(a, k)
    ensures Times(k, b - a) == Times(k, b) - Times(k, a)
  {
  }

  lemma TimesMonotone(a: real, b: real, k: real)
    requires a <= b && k >= 0.0
    ensures Times(a, k) <= Times(b, k)
  {
    hide Times;
    TimesNonNegative(b - a, k);
    TimesDifference(a, b, k);
  }

  lemma ScaledMonotone(a: real, b: real, mult: real)
    requires a <= b
    ensures Scaled(a, mult) <= Scaled(b, mult)
  {
    assert ClampMult(mult) >= 0.0;
    hide Times, ClampMult;
    TimesMonotone(a, b, ClampMult(mult));
  }

  lemma BandMonotone(a: real, b: real)
    requires a <= b
    ensures PriorityWeight(Band(a)) <= PriorityWeight(Band(b))
  {
  }

  /** With fixed signals neither the rank nor the priority ever falls as time passes. */
  lemma RankNeverFalls(item: WorkItem, earlier: int, later: int)
    requires earlier <= later
    ensures Score(item, earlier).rank <= Score(item, later).rank
    ensures PriorityWeight(Score(item, earlier).priority) <= PriorityWeight(Score(item, later).priority)
  {
    var s := item.signals;
    UrgencyMonotone(s, earlier, later);
    if s.research.Some? {
      ScaledMonotone(Foundation(s, earlier).urgency, Foundation(s, later).urgency, s.research.value.urgency);
    }
    hide Relevance, Impact, Engagement, Urgency, Scaled;
    BandMonotone(Rank(s, earlier), Rank(s, later));
  }

  // -------------------------------------------------------------------------
  // What a proposal and a research pass can do
  // -------------------------------------------------------------------------

  /** StubRanker.Propose. */
  function StubProposal(s: Signals, now: int): AxisProposal {
    var b := Baseline(s, now);
    AxisProposal(b.relevance, b.impact, b.engagement, b.urgency, 1.0, "baseline (stub ranker)")
  }

  lemma ClampUnitId(x: real)
    requires Unit(x)
    ensures ClampUnit(x) == x
  {
  }

  /** Recording the stub ranker's proposal leaves axes, rank and priority as they were. */
  lemma StubChangesNothing(item: WorkItem, now: int)
    requires item.signals.proposed.None?
    ensures var stubbed := item.(signals := item.signals.(proposed := Some(StubProposal(item.signals, now))));
      Score(stubbed, now) == Score(item, now)
  {
    var s := item.signals;
    var stubbed := s.(proposed := Some(StubProposal(s, now)));
    BaselineUnit(s, now);
    ClampUnitId(Relevance(s));
    ClampUnitId(Impact(s));
    ClampUnitId(Engagement(s));
    ClampUnitId(Urgency(s, now));
    hide Relevance, Impact, Engagement, Urgency, ClampUnit, Blend, Band, Scaled;
    assert Foundation(stubbed, now) == Foundation(s, now);
  }

  lemma MultRange(mult: real)
    ensures 0.0 <= ClampMult(mult) <= 2.0
    ensures mult == 1.0 ==> ClampMult(mult) == 1.0
  {
  }

  lemma TimesBounds(a: real, m: real)
    requires a >= 0.0 && 0.0 <= m <= 2.0
    ensures 0.0 <= Times(a, m) <= 2.0 * a
    ensures m == 1.0 ==> Times(a, m) == a
  {
    assert Times(a, 2.0) == 2.0 * a && (m == 1.0 ==> Times(a, m) == a);
    hide Times;
    TimesNonNegative(a, m);
    TimesNonNegative(a, 2.0 - m);
    TimesDifference(m, 2.0, a);
  }

  /** A number between 0 and twice an axis, brought into [0,1]. */
  lemma ClampBounds(x: real, a: real)
    requires 0.0 <= x <= 2.0 * a
    ensures 0.0 <= ClampUnit(x) <= 1.0 && ClampUnit(x) <= 2.0 * a
    ensures x == a <= 1.0 ==> ClampUnit(x) == a
  {
  }

  lemma ScaledBounds(a: real, mult: real)
    requires Unit(a)
    ensures Unit(Scaled(a, mult)) && Scaled(a, mult) <= 2.0 * a
    ensures mult == 1.0 ==> Scaled(a, mult) == a
  {
    MultRange(mult);
    hide ClampMult, ClampUnit, Times;
    TimesBounds(a, ClampMult(mult));
    ClampBounds(Times(a, ClampMult(mult)), a);
  }

  /** A neutral research pass is the identity; any pass at most doubles the rank, and keeps it at most 1. */
  lemma ResearchIsBounded(item: WorkItem, r: Research, now: int)
    ensures var without := item.(signals := item.signals.(research := None));
      var with := item.(signals := item.signals.(research := Some(r)));
      && Score(with, now).rank <= Min(1.0, 2.0 * Score(without, now).rank)
      && (r.relevance == r.impact == r.engagement == r.urgency == 1.0 ==> Score(with, now) == Score(without, now))
  {
    var s := item.signals.(research := None);
    var w := item.signals.(research := Some(r));
    var a := Foundation(s, now);
    assert Foundation(w, now) == a;
    FoundationUnit(s, now);
    ScaledBounds(a.relevance, r.relevance);
    ScaledBounds(a.impact, r.impact);
    ScaledBounds(a.engagement, r.engagement);
    ScaledBounds(a.urgency, r.urgency);
    hide Foundation, Scaled, Band;
  }
}
