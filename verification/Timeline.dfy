/** ItemActivity: whose court the ball is in, from one page of an item's timeline. */
module Timeline {
  import opened Options

  datatype Kind = Commented | Reviewed | CrossReferenced | ReviewRequested | OtherKind

  /** Times are instants counted from the zero time, so 0 is "unset"; a missing person is None. */
  datatype TimelineEvent = TimelineEvent(
    kind: Kind, state: string, createdAt: int, submittedAt: int,
    reviewer: Option<string>, user: Option<string>, actor: Option<string>)

  datatype Activity = Activity(
    participants: nat, inboundRefs: nat, otherReviewers: nat,
    awaitingMeSince: int, awaitingOthersSince: int, requestedByLogin: string)

  function EventLogin(e: TimelineEvent): string {
    if e.actor.Some? && e.actor.value != "" then e.actor.value
    else if e.user.Some? && e.user.value != "" then e.user.value
    else ""
  }

  predicate Decisive(state: string) { state == "changes_requested" || state == "approved" }

  // -------------------------------------------------------------------------
  // What an event says
  // -------------------------------------------------------------------------

  /** Somebody commented or reviewed. */
  datatype Voice = Voice(who: string, at: int, decisive: bool)

  function VoiceOf(e: TimelineEvent): Option<Voice> {
    match e.kind
    case Commented => if EventLogin(e) == "" then None else Some(Voice(EventLogin(e), e.createdAt, false))
    case Reviewed =>
      if e.user.None? || e.user.value == "" then None
      else Some(Voice(e.user.value, if e.submittedAt == 0 then e.createdAt else e.submittedAt, Decisive(e.state)))
    case _ => None
  }

  /** The event asks `login` for a review. */
  predicate Asks(e: TimelineEvent, login: string) { e.kind.ReviewRequested? && e.reviewer == Some(login) }

  ghost predicate Spoke(events: seq<TimelineEvent>, v: Voice) {
    exists e :: e in events && VoiceOf(e) == Some(v)
  }

  // -------------------------------------------------------------------------
  // The running maxima; on equal times the earlier event in the list stays
  // -------------------------------------------------------------------------

  function LastVoice(events: seq<TimelineEvent>): Option<Voice> {
    if events == [] then None else
    var before := LastVoice(events[..|events| - 1]);
    var v := VoiceOf(events[|events| - 1]);
    if v.Some? && v.value.at > (if before.Some? then before.value.at else 0) then v else before
  }

  function MyLast(events: seq<TimelineEvent>, login: string): int {
    if events == [] then 0 else
    var before := MyLast(events[..|events| - 1], login);
    var v := VoiceOf(events[|events| - 1]);
    if v.Some? && v.value.who == login && v.value.at > before then v.value.at else before
  }

  function LastAsk(events: seq<TimelineEvent>, login: string): Option<TimelineEvent> {
    if events == [] then None else
    var before := LastAsk(events[..|events| - 1], login);
    var e := events[|events| - 1];
    if Asks(e, login) && e.createdAt > (if before.Some? then before.value.createdAt else 0) then Some(e) else before
  }

  function People(events: seq<TimelineEvent>): set<string> {
    set e | e in events && VoiceOf(e).Some? :: VoiceOf(e).value.who
  }

  function Reviewers(events: seq<TimelineEvent>, login: string): set<string> {
    set e | e in events && e.kind.Reviewed? && VoiceOf(e).Some? && VoiceOf(e).value.who != login :: VoiceOf(e).value.who
  }

  function CrossRefs(events: seq<TimelineEvent>): nat {
    if events == [] then 0 else
    CrossRefs(events[..|events| - 1]) + (if events[|events| - 1].kind.CrossReferenced? then 1 else 0)
  }

  /** The ball is in others' court since then: login had the last word, or a decisive review did. */
  function OthersSince(events: seq<TimelineEvent>, login: string): int {
    match LastVoice(events)
    case None => 0
    case Some(v) => if v.who == login || v.decisive then v.at else 0
  }

  /** login was asked, and has neither engaged since nor been overtaken. */
  predicate AwaitsMe(events: seq<TimelineEvent>, login: string) {
    match LastAsk(events, login)
    case None => false
    case Some(e) => e.createdAt > MyLast(events, login) && e.createdAt > OthersSince(events, login)
  }

  function Summary(events: seq<TimelineEvent>, login: string): Activity {
    var me := AwaitsMe(events, login);
    Activity(
      |People(events)|, CrossRefs(events), |Reviewers(events, login)|,
      if me then LastAsk(events, login).value.createdAt else 0,
      if me then 0 else OthersSince(events, login),
      if me then EventLogin(LastAsk(events, login).value) else "")
  }

  // -------------------------------------------------------------------------
  // What the maxima mean
  // -------------------------------------------------------------------------

  lemma SpokeStep(front: seq<TimelineEvent>, e: TimelineEvent)
    ensures forall v :: Spoke(front + [e], v) <==> Spoke(front, v) || VoiceOf(e) == Some(v)
  {
    forall v ensures Spoke(front + [e], v) <==> Spoke(front, v) || VoiceOf(e) == Some(v) {
      if Spoke(front, v) {
        var x :| x in front && VoiceOf(x) == Some(v);
        assert x in front + [e];
      }
      if VoiceOf(e) == Some(v) {
        assert e in front + [e];
      }
    }
  }

  /** The last voice is later than every voice, and there is none only when nobody spoke after the zero time. */
  lemma {:induction false} LastVoiceMeaning(events: seq<TimelineEvent>)
    ensures match LastVoice(events)
      case None => forall v :: Spoke(events, v) ==> v.at <= 0
      case Some(l) => Spoke(events, l) && l.at > 0 && l.who != "" && forall v :: Spoke(events, v) ==> v.at <= l.at
    decreases |events|
  {
    if events != [] {
      var front, e := events[..|events| - 1], events[|events| - 1];
      assert events == front + [e];
      LastVoiceMeaning(front);
      SpokeStep(front, e);
    }
  }

  lemma {:induction false} MyLastMeaning(events: seq<TimelineEvent>, login: string)
    ensures MyLast(events, login) >= 0
    ensures forall v :: Spoke(events, v) && v.who == login ==> v.at <= MyLast(events, login)
    ensures MyLast(events, login) > 0 ==> exists v :: Spoke(events, v) && v.who == login && v.at == MyLast(events, login)
    decreases |events|
  {
    if events != [] {
      var front, e := events[..|events| - 1], events[|events| - 1];
      assert events == front + [e];
      MyLastMeaning(front, login);
      SpokeStep(front, e);
    }
  }

  /** When login had the last word, login's latest voice is the latest voice. */
  lemma OwnLastWord(events: seq<TimelineEvent>, login: string)
    ensures LastVoice(events).Some? && LastVoice(events).value.who == login ==> MyLast(events, login) == LastVoice(events).value.at
    ensures LastVoice(events).Some? ==> MyLast(events, login) <= LastVoice(events).value.at
    ensures LastVoice(events).None? ==> MyLast(events, login) == 0
  {
    LastVoiceMeaning(events);
    MyLastMeaning(events, login);
  }

  lemma {:induction false} LastAskMeaning(events: seq<TimelineEvent>, login: string)
    ensures match LastAsk(events, login)
      case None => forall e :: e in events && Asks(e, login) ==> e.createdAt <= 0
      case Some(l) => l in events && Asks(l, login) && l.createdAt > 0 && forall e :: e in events && Asks(e, login) ==> e.createdAt <= l.createdAt
    decreases |events|
  {
    if events != [] {
      var front, e := events[..|events| - 1], events[|events| - 1];
      assert events == front + [e];
      LastAskMeaning(front, login);
    }
  }

  // -------------------------------------------------------------------------
  // The fold
  // -------------------------------------------------------------------------

  lemma FoldStart(login: string)
    ensures People([]) == {} && Reviewers([], login) == {} && CrossRefs([]) == 0
    ensures LastVoice([]).None? && LastAsk([], login).None? && MyLast([], login) == 0
  {
  }

  lemma FoldStep(events: seq<TimelineEvent>, i: nat, login: string)
    requires i < |events|
    ensures var e, before, after := events[i], events[..i], events[..i + 1];
      var v := VoiceOf(e);
      && CrossRefs(after) == CrossRefs(before) + (if e.kind.CrossReferenced? then 1 else 0)
      && LastVoice(after) == (if v.Some? && v.value.at > (if LastVoice(before).Some? then LastVoice(before).value.at else 0)
                              then v else LastVoice(before))
      && MyLast(after, login) == (if v.Some? && v.value.who == login && v.value.at > MyLast(before, login)
                                  then v.value.at else MyLast(before, login))
      && LastAsk(after, login) ==
         (if Asks(e, login) && e.createdAt > (if LastAsk(before, login).Some? then LastAsk(before, login).value.createdAt else 0)
          then Some(e) else LastAsk(before, login))
  {
    assert events[..i + 1][..i] == events[..i];
  }

  lemma PeopleStep(events: seq<TimelineEvent>, i: nat, login: string)
    requires i < |events|
    ensures var v := VoiceOf(events[i]);
      && People(events[..i + 1]) == People(events[..i]) + (if v.Some? then {v.value.who} else {})
      && Reviewers(events[..i + 1], login) ==
         Reviewers(events[..i], login) + (if events[i].kind.Reviewed? && v.Some? && v.value.who != login then {v.value.who} else {})
  {
    assert events[..i + 1] == events[..i] + [events[i]];
  }

  method ItemActivity(events: seq<TimelineEvent>, login: string) returns (a: Activity)
    ensures a == Summary(events, login)
  {
    hide People, Reviewers, LastVoice, LastAsk, MyLast, CrossRefs, Decisive, EventLogin;
    FoldStart(login);
    var participants, otherReviewers: set<string> := {}, {};
    var inbound := 0;
    var requestedAt, myLastActivityAt, lastActivityAt := 0, 0, 0;
    var lastActor, requestedByLogin := "", "";
    var lastActivityDecisive := false;
    assert events[..0] == [];
    for i := 0 to |events|
      invariant participants == People(events[..i]) && otherReviewers == Reviewers(events[..i], login)
      invariant inbound == CrossRefs(events[..i])
      invariant myLastActivityAt == MyLast(events[..i], login)
      invariant match LastAsk(events[..i], login)
        case None => requestedAt == 0 && requestedByLogin == ""
        case Some(e) => requestedAt == e.createdAt && requestedByLogin == EventLogin(e) && requestedAt > 0
      invariant match LastVoice(events[..i])
        case None => lastActivityAt == 0 && lastActor == "" && !lastActivityDecisive
        case Some(v) => v == Voice(lastActor, lastActivityAt, lastActivityDecisive) && v.at > 0 && v.who != ""
    {
      var e := events[i];
      FoldStep(events, i, login);
      PeopleStep(events, i, login);
      match e.kind {
        case Commented =>
          var l := EventLogin(e);
          if l != "" {
            participants := participants + {l};
            if e.createdAt > lastActivityAt {
              lastActivityAt, lastActor, lastActivityDecisive := e.createdAt, l, false;
            }
            if l == login && e.createdAt > myLastActivityAt {
              myLastActivityAt := e.createdAt;
            }
          }
        case Reviewed =>
          if e.user.Some? && e.user.value != "" {
            var l := e.user.value;
            participants := participants + {l};
            var at := e.submittedAt;
            if at == 0 {
              at := e.createdAt;
            }
            if at > lastActivityAt {
              lastActivityAt, lastActor := at, l;
              lastActivityDecisive := Decisive(e.state);
            }
            if l == login {
              if at > myLastActivityAt {
                myLastActivityAt := at;
              }
            } else {
              otherReviewers := otherReviewers + {l};
            }
          }
        case CrossReferenced =>
          inbound := inbound + 1;
        case ReviewRequested =>
          if e.reviewer == Some(login) && e.createdAt > requestedAt {
            requestedAt := e.createdAt;
            requestedByLogin := EventLogin(e);
          }
        case OtherKind =>
      }
    }
    assert events[..|events|] == events;
    OwnLastWord(events, login);
    var meSince, othersSince := 0, 0;
    if requestedAt != 0 && requestedAt > myLastActivityAt {
      meSince := requestedAt;
    }
    if lastActor == login && myLastActivityAt != 0 {
      othersSince := myLastActivityAt;
    } else if lastActivityDecisive {
      othersSince := lastActivityAt;
    }
    a := Activity(|participants|, inbound, |otherReviewers|, 0, 0, "");
    if meSince > othersSince {
      a := a.(awaitingMeSince := meSince, requestedByLogin := requestedByLogin);
    } else if othersSince != 0 {
      a := a.(awaitingOthersSince := othersSince);
    }
  }

  // -------------------------------------------------------------------------
  // Whose court
  // -------------------------------------------------------------------------

  /**
   * The court, declaratively. Awaiting login since t: t is the latest request to login, later than
   * every comment and review of login's and than a decisive last review. Otherwise awaiting others
   * since the last voice, when it is login's or a decisive review; otherwise neither.
   */
  lemma CourtMeaning(events: seq<TimelineEvent>, login: string)
    ensures var a := Summary(events, login); var l := LastVoice(events);
      && (a.awaitingMeSince > 0 <==>
            exists r :: r in events && Asks(r, login) && r.createdAt > 0
              && (forall v :: Spoke(events, v) && v.who == login ==> v.at < r.createdAt)
              && (l.Some? && l.value.decisive ==> l.value.at < r.createdAt))
      && (a.awaitingMeSince > 0 ==>
            && (exists r :: r in events && Asks(r, login) && r.createdAt == a.awaitingMeSince && EventLogin(r) == a.requestedByLogin)
            && (forall r :: r in events && Asks(r, login) ==> r.createdAt <= a.awaitingMeSince)
            && a.awaitingOthersSince == 0)
      && (a.awaitingMeSince <= 0 ==>
            && a.awaitingMeSince == 0 && a.requestedByLogin == ""
            && a.awaitingOthersSince == (if l.Some? && (l.value.who == login || l.value.decisive) then l.value.at else 0))
  {
    LastVoiceMeaning(events);
    MyLastMeaning(events, login);
    LastAskMeaning(events, login);
    OwnLastWord(events, login);
  }

  // -------------------------------------------------------------------------
  // The court and the counts on the events' own fields
  // -------------------------------------------------------------------------

  /** A comment counts for its actor, or for its user when no actor is named. */
  ghost predicate CommentBy(e: TimelineEvent, who: string) {
    && e.kind == Commented && who != ""
    && (e.actor == Some(who) || ((e.actor == None || e.actor == Some("")) && e.user == Some(who)))
  }

  /** A review counts for its user. */
  ghost predicate ReviewBy(e: TimelineEvent, who: string) { e.kind == Reviewed && who != "" && e.user == Some(who) }

  ghost predicate SpeaksFor(e: TimelineEvent, who: string) { CommentBy(e, who) || ReviewBy(e, who) }

  /** A comment is dated by its creation, a review by its submission, or its creation when that is unset. */
  function SpokenAt(e: TimelineEvent): int {
    if e.kind == Reviewed && e.submittedAt != 0 then e.submittedAt else e.createdAt
  }

  /** `e` is by `who` and later than every other named comment and review. */
  ghost predicate LastWord(events: seq<TimelineEvent>, e: TimelineEvent, who: string) {
    && e in events && SpeaksFor(e, who) && SpokenAt(e) > 0
    && forall d, other :: d in events && SpeaksFor(d, other) && d != e ==> SpokenAt(d) < SpokenAt(e)
  }

  ghost predicate RequestTo(e: TimelineEvent, login: string) { e.kind == ReviewRequested && e.reviewer == Some(login) }

  lemma VoiceOnFields(e: TimelineEvent, who: string)
    ensures SpeaksFor(e, who) <==> VoiceOf(e).Some? && VoiceOf(e).value.who == who
    ensures SpeaksFor(e, who) ==>
      && VoiceOf(e).value.at == SpokenAt(e)
      && (VoiceOf(e).value.decisive <==> e.kind == Reviewed && (e.state == "approved" || e.state == "changes_requested"))
  {
  }

  lemma LastWordIsLast(events: seq<TimelineEvent>, e: TimelineEvent, who: string)
    requires LastWord(events, e, who)
    ensures LastVoice(events) == VoiceOf(e)
  {
    LastVoiceMeaning(events);
    VoiceOnFields(e, who);
    assert Spoke(events, VoiceOf(e).value);
    hide VoiceOf, SpeaksFor, LastVoice;
    var l := LastVoice(events).value;
    var d :| d in events && VoiceOf(d) == Some(l);
    VoiceOnFields(d, l.who);
    VoiceOnFields(e, who);
  }

  /** A request is still open to login: it is dated, and later than everything login said. */
  ghost predicate Unanswered(events: seq<TimelineEvent>, r: TimelineEvent, login: string) {
    && r in events && RequestTo(r, login) && r.createdAt > 0
    && forall d :: d in events && SpeaksFor(d, login) ==> SpokenAt(d) < r.createdAt
  }

  lemma UnansweredMeaning(events: seq<TimelineEvent>, r: TimelineEvent, login: string)
    ensures Unanswered(events, r, login) <==>
      && r in events && Asks(r, login) && r.createdAt > 0
      && (forall v :: Spoke(events, v) && v.who == login ==> v.at < r.createdAt)
  {
    hide VoiceOf, SpeaksFor;
    if forall d :: d in events && SpeaksFor(d, login) ==> SpokenAt(d) < r.createdAt {
      forall v | Spoke(events, v) && v.who == login
        ensures v.at < r.createdAt
      {
        var d :| d in events && VoiceOf(d) == Some(v);
        VoiceOnFields(d, login);
      }
    }
    if forall v :: Spoke(events, v) && v.who == login ==> v.at < r.createdAt {
      forall d | d in events && SpeaksFor(d, login)
        ensures SpokenAt(d) < r.createdAt
      {
        VoiceOnFields(d, login);
        assert Spoke(events, VoiceOf(d).value);
      }
    }
  }

  /** The time is that of the latest request to login, and the name its actor's, or its user's, or none. */
  ghost predicate RequestedAt(events: seq<TimelineEvent>, login: string, a: Activity) {
    && (forall r :: r in events && RequestTo(r, login) ==> r.createdAt <= a.awaitingMeSince)
    && exists r :: r in events && RequestTo(r, login) && r.createdAt == a.awaitingMeSince
         && a.requestedByLogin ==
              (if r.actor.Some? && r.actor.value != "" then r.actor.value else if r.user.Some? then r.user.value else "")
  }

  lemma MeOnFields(events: seq<TimelineEvent>, login: string)
    ensures Summary(events, login).awaitingMeSince > 0 ==> RequestedAt(events, login, Summary(events, login))
  {
    CourtMeaning(events, login);
    hide Summary, LastVoice, VoiceOf;
    var a := Summary(events, login);
    if a.awaitingMeSince > 0 {
      var r :| r in events && Asks(r, login) && r.createdAt == a.awaitingMeSince && EventLogin(r) == a.requestedByLogin;
      assert RequestTo(r, login);
    }
  }

  /**
   * With a last word: it moves the court when it is login's own, or an approving or change-requesting review.
   * Then others are awaited since its time, unless a request to login is later. Any other last word awaits
   * nobody, and login is awaited since the latest unanswered request.
   */
  lemma CourtOnFields(events: seq<TimelineEvent>, login: string, e: TimelineEvent, who: string)
    requires LastWord(events, e, who)
    ensures var a := Summary(events, login);
      var moves := who == login || (e.kind == Reviewed && (e.state == "approved" || e.state == "changes_requested"));
      && (moves && (forall r :: r in events && RequestTo(r, login) ==> r.createdAt <= SpokenAt(e)) ==>
          a.awaitingOthersSince == SpokenAt(e) && a.awaitingMeSince == 0 && a.requestedByLogin == "")
      && (!moves ==> a.awaitingOthersSince == 0)
      && (a.awaitingMeSince > 0 <==> exists r :: Unanswered(events, r, login) && (moves ==> r.createdAt > SpokenAt(e)))
      && (a.awaitingMeSince > 0 ==> RequestedAt(events, login, a))
      && (a.awaitingMeSince <= 0 ==> a.awaitingMeSince == 0 && a.requestedByLogin == "")
  {
    LastWordIsLast(events, e, who);
    VoiceOnFields(e, who);
    CourtMeaning(events, login);
    hide Summary, LastVoice, VoiceOf, SpeaksFor, Unanswered, EventLogin;
    MeOnFields(events, login);
    forall r | r in events
      ensures Unanswered(events, r, login) <==>
        Asks(r, login) && r.createdAt > 0 && (forall v :: Spoke(events, v) && v.who == login ==> v.at < r.createdAt)
    {
      UnansweredMeaning(events, r, login);
    }
    forall r | Unanswered(events, r, login)
      ensures r in events
    {
      UnansweredMeaning(events, r, login);
    }
  }

  /** With no named comment or review after the zero time only a request can move the court. */
  lemma CourtInSilence(events: seq<TimelineEvent>, login: string)
    requires forall d, other :: d in events && SpeaksFor(d, other) ==> SpokenAt(d) <= 0
    ensures var a := Summary(events, login);
      && a.awaitingOthersSince == 0
      && (a.awaitingMeSince > 0 <==> exists r :: r in events && RequestTo(r, login) && r.createdAt > 0)
      && (a.awaitingMeSince > 0 ==> RequestedAt(events, login, a))
  {
    CourtMeaning(events, login);
    LastVoiceMeaning(events);
    MeOnFields(events, login);
    hide Summary, LastVoice, VoiceOf, SpeaksFor, EventLogin;
    forall v | Spoke(events, v)
      ensures v.at <= 0
    {
      var d :| d in events && VoiceOf(d) == Some(v);
      VoiceOnFields(d, v.who);
    }
    forall r | r in events && RequestTo(r, login)
      ensures Asks(r, login)
    {
    }
  }

  lemma {:induction false} CrossRefsCount(events: seq<TimelineEvent>)
    ensures CrossRefs(events) == |set i | 0 <= i < |events| && events[i].kind == CrossReferenced|
  {
    var all := set i | 0 <= i < |events| && events[i].kind == CrossReferenced;
    if events == [] {
      assert all == {};
    } else {
      var n := |events| - 1;
      var front := events[..n];
      CrossRefsCount(front);
      var before := set i | 0 <= i < |front| && front[i].kind == CrossReferenced;
      assert all == if events[n].kind == CrossReferenced then before + {n} else before;
    }
  }

  /** The counts: the people named on comments and reviews, the reviewers other than login, the cross-references. */
  lemma CountsOnFields(events: seq<TimelineEvent>, login: string, people: set<string>, reviewers: set<string>)
    requires forall who :: who in people <==> exists e :: e in events && SpeaksFor(e, who)
    requires forall who :: who in reviewers <==> who != login && exists e :: e in events && ReviewBy(e, who)
    ensures var a := Summary(events, login);
      && a.participants == |people| && a.otherReviewers == |reviewers|
      && a.inboundRefs == |set i | 0 <= i < |events| && events[i].kind == CrossReferenced|
  {
    CrossRefsCount(events);
    hide CrossRefs;
    forall e, who
      ensures SpeaksFor(e, who) <==> VoiceOf(e).Some? && VoiceOf(e).value.who == who
    {
      VoiceOnFields(e, who);
    }
    forall who
      ensures who in people <==> who in People(events)
      ensures who in reviewers <==> who in Reviewers(events, login)
    {
    }
    assert people == People(events) && reviewers == Reviewers(events, login);
  }

  // -------------------------------------------------------------------------
  // The order of the events does not matter
  // -------------------------------------------------------------------------

  /** No two different voices, and no two different requests to login, carry the same time. */
  ghost predicate DistinctTimes(events: seq<TimelineEvent>, login: string) {
    && (forall u, v :: Spoke(events, u) && Spoke(events, v) && u.at == v.at ==> u == v)
    && (forall d, e :: d in events && e in events && Asks(d, login) && Asks(e, login) && d.createdAt == e.createdAt
          ==> EventLogin(d) == EventLogin(e))
  }

  lemma CrossRefsOne(e: TimelineEvent)
    ensures CrossRefs([e]) == if e.kind.CrossReferenced? then 1 else 0
  {
    assert [e][..0] == [];
  }

  lemma {:induction false} CrossRefsJoin(a: seq<TimelineEvent>, b: seq<TimelineEvent>)
    ensures CrossRefs(a + b) == CrossRefs(a) + CrossRefs(b)
    decreases |b|
  {
    if b == [] {
      assert a + b == a;
    } else {
      assert (a + b)[..|a + b| - 1] == a + b[..|b| - 1];
      CrossRefsJoin(a, b[..|b| - 1]);
    }
  }

  /** Taking one event out of the middle. */
  lemma TakeOut(b: seq<TimelineEvent>, i: nat)
    requires i < |b|
    ensures multiset(b) == multiset(b[..i] + b[i + 1..]) + multiset{b[i]}
    ensures CrossRefs(b) == CrossRefs(b[..i] + b[i + 1..]) + (if b[i].kind.CrossReferenced? then 1 else 0)
  {
    hide CrossRefs;
    var x, y, e := b[..i], b[i + 1..], b[i];
    assert b == (x + [e]) + y;
    CrossRefsJoin(x + [e], y);
    CrossRefsJoin(x, [e]);
    CrossRefsJoin(x, y);
    CrossRefsOne(e);
  }

  lemma Cancel(p: multiset<TimelineEvent>, q: multiset<TimelineEvent>, e: TimelineEvent)
    requires p + multiset{e} == q + multiset{e}
    ensures p == q
  {
    assert p == p + multiset{e} - multiset{e};
    assert q == q + multiset{e} - multiset{e};
  }

  lemma {:induction false} CrossRefsOfMultiset(a: seq<TimelineEvent>, b: seq<TimelineEvent>)
    requires multiset(a) == multiset(b)
    ensures CrossRefs(a) == CrossRefs(b)
    decreases |a|
  {
    if a == [] {
      assert |multiset(b)| == 0;
    } else {
      var n := |a| - 1;
      assert a[n] in multiset(b);
      var i :| 0 <= i < |b| && b[i] == a[n];
      TakeOut(a, n);
      TakeOut(b, i);
      assert a[..n] + a[n + 1..] == a[..n];
      Cancel(multiset(a[..n]), multiset(b[..i] + b[i + 1..]), a[n]);
      CrossRefsOfMultiset(a[..n], b[..i] + b[i + 1..]);
    }
  }

  lemma SameMembers(a: seq<TimelineEvent>, b: seq<TimelineEvent>)
    requires multiset(a) == multiset(b)
    ensures forall e :: e in a <==> e in b
    ensures forall v :: Spoke(a, v) <==> Spoke(b, v)
  {
    forall e ensures e in a <==> e in b {
      assert e in a <==> e in multiset(a);
      assert e in b <==> e in multiset(b);
    }
  }

  /** Reordering a timeline with distinct times changes nothing in the summary. */
  lemma OrderIrrelevant(a: seq<TimelineEvent>, b: seq<TimelineEvent>, login: string)
    requires multiset(a) == multiset(b) && DistinctTimes(a, login)
    ensures Summary(a, login) == Summary(b, login)
  {
    SameMembers(a, b);
    CrossRefsOfMultiset(a, b);
    assert People(a) == People(b) && Reviewers(a, login) == Reviewers(b, login);
    LastVoiceMeaning(a);
    LastVoiceMeaning(b);
    MyLastMeaning(a, login);
    MyLastMeaning(b, login);
    LastAskMeaning(a, login);
    LastAskMeaning(b, login);
    hide LastVoice, MyLast, LastAsk, People, Reviewers, CrossRefs, EventLogin, VoiceOf;
    assert LastVoice(a) == LastVoice(b);
    assert MyLast(a, login) == MyLast(b, login);
  }
}
