/** The work items of the worklist: what GitHub says, what the model and the user added, and ZZ's judgment. */
module Items {
  import opened Options

  datatype Priority = PriorityNone | PriorityLow | PriorityMedium | PriorityHigh

  datatype Reason =
    | ReviewRequested | Assignee | Codeowner | Author | Commented | Mentioned | TeamMentioned
    | OtherReason(name: string)

  datatype Origin = OriginAgent | OriginUser | OtherOrigin(name: string)

  /** Axis values are reals here; instants are nanoseconds from the zero time, so 0 is unset. */
  datatype AxisProposal = AxisProposal(relevance: real, impact: real, engagement: real, urgency: real, confidence: real, rationale: string)

  datatype Research = Research(relevance: real, impact: real, engagement: real, urgency: real, rationale: string, appliedAt: int)

  datatype Signals = Signals(
    reasons: seq<Reason>,
    reviewRequestedBy: string, reviewRequestedByBot: bool,
    comments: int, participants: int, reactions: int, inboundRefs: int, commentVelocity: real,
    awaitingMeSince: int, deadlineAt: int,
    repoTier: int, labels: seq<string>,
    proposed: Option<AxisProposal>, research: Option<Research>)

  datatype Metadata = Metadata(
    relevance: real, impact: real, engagement: real, urgency: real, rank: real,
    priority: Priority, origin: Origin,
    scoredAt: int, updatedAt: int, hiddenAt: int, completedAt: int)

  datatype Role = RoleUser | RoleAgent

  datatype Message = Message(role: Role, content: string, at: int)

  datatype WorkItem = WorkItem(
    id: string, owner: string, githubUpdatedAt: int,
    signals: Signals, meta: Metadata,
    thread: seq<Message>, threadReadAt: int,
    createdAt: int, updatedAt: int)

  /** The most recent agent reply is newer than the read receipt. */
  predicate Unread(thread: seq<Message>, readAt: int) {
    if thread == [] then false
    else if thread[|thread| - 1].role == RoleAgent then thread[|thread| - 1].at > readAt
    else Unread(thread[..|thread| - 1], readAt)
  }

  predicate HasUnreadReply(w: WorkItem) { Unread(w.thread, w.threadReadAt) }

  /** Unread says that some agent reply is newer than the read receipt and no agent reply follows it. */
  lemma {:induction false} UnreadMeaning(thread: seq<Message>, readAt: int)
    ensures Unread(thread, readAt) <==>
      exists i :: 0 <= i < |thread| && thread[i].role.RoleAgent? && thread[i].at > readAt
               && forall k :: i < k < |thread| ==> thread[k].role.RoleUser?
  {
    if thread != [] {
      var front, last := thread[..|thread| - 1], |thread| - 1;
      if thread[last].role.RoleUser? {
        UnreadMeaning(front, readAt);
        if Unread(front, readAt) {
          var i :| 0 <= i < last && front[i].role.RoleAgent? && front[i].at > readAt && forall k :: i < k < last ==> front[k].role.RoleUser?;
          assert thread[i] == front[i];
        }
        assert forall i :: 0 <= i < last ==> front[i] == thread[i];
      }
    }
  }

  /** A pending user turn does not clear the cue: the reply before it still counts as unread. */
  lemma PendingTurnCanBeUnread() returns (thread: seq<Message>)
    ensures thread != [] && thread[|thread| - 1].role.RoleUser? && Unread(thread, 0)
  {
    thread := [Message(RoleAgent, "reply", 1), Message(RoleUser, "and?", 2)];
    assert thread[..1] == [thread[0]];
  }

  method CheckUnread(w: WorkItem) returns (unread: bool)
    ensures unread == HasUnreadReply(w)
  {
    var i := |w.thread| - 1;
    assert w.thread[..|w.thread|] == w.thread;
    while i >= 0
      invariant -1 <= i < |w.thread|
      invariant HasUnreadReply(w) == Unread(w.thread[..i + 1], w.threadReadAt)
    {
      if w.thread[i].role == RoleAgent {
        return w.thread[i].at > w.threadReadAt;
      }
      assert w.thread[..i + 1][..i] == w.thread[..i];
      i := i - 1;
    }
    unread := false;
  }
}
