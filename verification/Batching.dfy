/** The batched review cadence: one open batch per repository, closed at five stories or after a day. */
module Batching {
  import opened Common

  const MAX_STORIES := 5
  /** 24 hours, in seconds. */
  const MAX_AGE := 86400

  type Repo = string

  datatype Story = Story(id: string, repo: Repo, completedAt: int)

  datatype CloseReason = Size | Age

  datatype Batch = Batch(repo: Repo, openedAt: int, stories: seq<Story>, closed: Option<CloseReason>, closedAt: int)

  datatype State = State(open: map<Repo, Batch>, closed: seq<Batch>)

  /** A story submitted; or a batch closed by a sweep that found it too old. */
  datatype Event = Submitted(story: Story, checkpointTripped: bool) | Swept(repo: Repo, now: int)

  predicate Aged(b: Batch, now: int) {
    now - b.openedAt >= MAX_AGE
  }

  function CloseReasonOf(b: Batch, now: int): Option<CloseReason> {
    if |b.stories| >= MAX_STORIES then Some(Size) else if Aged(b, now) then Some(Age) else None
  }

  function Close(s: State, repo: Repo, reason: CloseReason, now: int): State
    requires repo in s.open
  {
    State(s.open - {repo}, s.closed + [s.open[repo].(closed := Some(reason), closedAt := now)])
  }

  function WithStory(s: State, story: Story): Batch {
    var b := if story.repo in s.open then s.open[story.repo] else Batch(story.repo, story.completedAt, [], None, 0);
    b.(stories := b.stories + [story])
  }

  function Submit(s: State, story: Story): State {
    var b := WithStory(s, story);
    var s' := s.(open := s.open[story.repo := b]);
    var reason := CloseReasonOf(b, story.completedAt);
    if reason.Some? then Close(s', story.repo, reason.value, story.completedAt) else s'
  }

  function Next(s: State, e: Event): Option<State> {
    match e
    case Submitted(story, checkpoint) => Some(if checkpoint then s else Submit(s, story))
    case Swept(repo, now) =>
      if repo in s.open && CloseReasonOf(s.open[repo], now).Some? then
        Some(Close(s, repo, CloseReasonOf(s.open[repo], now).value, now))
      else None
  }

  function Exec(log: seq<Event>): Option<State> {
    if log == [] then Some(State(map[], []))
    else
      var before := Exec(log[..|log| - 1]);
      if before.None? then None else Next(before.value, log[|log| - 1])
  }

  // ---- What every run keeps ------------------------------------------------------

  /** The stories of one repository that no checkpoint pulled out, in the order they came in. */
  function Batched(log: seq<Event>, repo: Repo): seq<Story> {
    if log == [] then []
    else
      var e := log[|log| - 1];
      Batched(log[..|log| - 1], repo)
      + if e.Submitted? && !e.checkpointTripped && e.story.repo == repo then [e.story] else []
  }

  function ClosedStories(closed: seq<Batch>, repo: Repo): seq<Story> {
    if closed == [] then []
    else
      var b := closed[|closed| - 1];
      ClosedStories(closed[..|closed| - 1], repo) + if b.repo == repo then b.stories else []
  }

  function OpenStories(s: State, repo: Repo): seq<Story> {
    if repo in s.open then s.open[repo].stories else []
  }

  /** One repository only, opened when its first story came in. */
  ghost predicate Uniform(b: Batch) {
    && b.stories != [] && b.openedAt == b.stories[0].completedAt
    && forall x | x in b.stories :: x.repo == b.repo
  }

  ghost predicate OpenOk(s: State, repo: Repo)
    requires repo in s.open
  {
    var b := s.open[repo];
    b.repo == repo && b.closed.None? && Uniform(b) && 1 <= |b.stories| <= 4
  }

  /** Five stories if it closed by size; one to four, and a day old, if it closed by age. */
  ghost predicate ClosedOk(b: Batch) {
    && Uniform(b)
    && match b.closed
       case None => false
       case Some(Size) => |b.stories| == 5
       case Some(Age) => 1 <= |b.stories| <= 4 && b.closedAt - b.openedAt >= 24 * 60 * 60
  }

  ghost predicate Inv(s: State) {
    && (forall repo | repo in s.open :: OpenOk(s, repo))
    && (forall b | b in s.closed :: ClosedOk(b))
  }

  lemma ClosedAdds(closed: seq<Batch>, b: Batch, repo: Repo)
    ensures ClosedStories(closed + [b], repo) == ClosedStories(closed, repo) + if b.repo == repo then b.stories else []
  {
    assert (closed + [b])[..|closed|] == closed;
  }

  lemma StepKeepsInv(s: State, e: Event)
    requires Inv(s) && Next(s, e).Some?
    ensures Inv(Next(s, e).value)
  {
    var s' := Next(s, e).value;
    if e.Submitted? && !e.checkpointTripped {
      var b := WithStory(s, e.story);
      if e.story.repo in s.open {
        assert OpenOk(s, e.story.repo);
      }
      assert b.repo == e.story.repo && b.closed.None? && Uniform(b) && 1 <= |b.stories| <= MAX_STORIES;
    }
    forall repo | repo in s'.open ensures OpenOk(s', repo) {
      if repo in s.open {
        assert OpenOk(s, repo);
      }
    }
    forall b | b in s'.closed ensures ClosedOk(b) {
      if e.Swept? {
        assert OpenOk(s, e.repo);
      }
    }
  }

  lemma SubmittedConserves(s: State, story: Story, repo: Repo)
    requires story.repo in s.open ==> OpenOk(s, story.repo)
    ensures var s' := Next(s, Submitted(story, false)).value;
            ClosedStories(s'.closed, repo) + OpenStories(s', repo)
            == ClosedStories(s.closed, repo) + OpenStories(s, repo) + if story.repo == repo then [story] else []
  {
    var b := WithStory(s, story);
    var reason := CloseReasonOf(b, story.completedAt);
    if reason.Some? {
      ClosedAdds(s.closed, b.(closed := Some(reason.value), closedAt := story.completedAt), repo);
      hide ClosedStories, CloseReasonOf;
    }
  }

  /** Stories of one repository before and after a step. */
  lemma StepConserves(s: State, e: Event, repo: Repo)
    requires Inv(s) && Next(s, e).Some?
    ensures var s' := Next(s, e).value;
            ClosedStories(s'.closed, repo) + OpenStories(s', repo)
            == ClosedStories(s.closed, repo) + OpenStories(s, repo)
               + if e.Submitted? && !e.checkpointTripped && e.story.repo == repo then [e.story] else []
  {
    match e
    case Submitted(story, checkpoint) =>
      if !checkpoint {
        assert story.repo in s.open ==> OpenOk(s, story.repo);
        SubmittedConserves(s, story, repo);
        hide ClosedStories, OpenStories, WithStory, CloseReasonOf;
      }
    case Swept(r, now) =>
      assert OpenOk(s, r);
      ClosedAdds(s.closed, s.open[r].(closed := CloseReasonOf(s.open[r], now), closedAt := now), repo);
      hide ClosedStories, CloseReasonOf;
  }

  /**
   * Over any run: the closed batches of a repository, one after the other, and then its open batch hold
   * exactly the stories submitted for it, each once and in order.
   */
  lemma {:induction false} StoriesAreConserved(log: seq<Event>, repo: Repo)
    requires Exec(log).Some?
    ensures Inv(Exec(log).value)
    ensures ClosedStories(Exec(log).value.closed, repo) + OpenStories(Exec(log).value, repo) == Batched(log, repo)
  {
    if log != [] {
      var front := log[..|log| - 1];
      StoriesAreConserved(front, repo);
      StepKeepsInv(Exec(front).value, log[|log| - 1]);
      StepConserves(Exec(front).value, log[|log| - 1], repo);
    }
  }

  /** A closed batch is never reopened or changed. */
  lemma {:induction false} ClosedForever(log: seq<Event>, n: nat)
    requires Exec(log).Some? && n <= |log|
    ensures Exec(log[..n]).Some? && Exec(log[..n]).value.closed <= Exec(log).value.closed
    decreases |log|
  {
    if n == |log| {
      assert log[..n] == log;
    } else {
      ClosedForever(log[..|log| - 1], n);
      assert log[..|log| - 1][..n] == log[..n];
    }
  }

  /**
   * A story closes its batch exactly if it is the fifth or comes a day or more after the first, and it
   * closes it at that moment. Otherwise the batch stays open with the story at its end.
   */
  lemma SubmittedClosesIff(s: State, story: Story)
    requires Inv(s)
    ensures var s', repo := Next(s, Submitted(story, false)).value, story.repo;
            var was := OpenStories(s, repo);
            var openedAt := if repo in s.open then s.open[repo].openedAt else story.completedAt;
            && (repo !in s'.open <==> |was| == 4 || story.completedAt - openedAt >= 24 * 60 * 60)
            && (repo in s'.open ==>
                 s'.closed == s.closed && s'.open[repo].stories == was + [story] && s'.open[repo].openedAt == openedAt)
            && (repo !in s'.open ==>
                 && |s'.closed| == |s.closed| + 1 && s.closed <= s'.closed
                 && var b := s'.closed[|s.closed|];
                    && b.repo == repo && b.stories == was + [story] && b.openedAt == openedAt && b.closedAt == story.completedAt
                    && (b.closed == Some(Size) <==> |was| == 4))
  {
    var repo := story.repo;
    if repo in s.open {
      assert OpenOk(s, repo);
    }
  }

  class BatchManager {
    var open: map<Repo, Batch>
    var closed: seq<Batch>
    ghost var log: seq<Event>

    ghost predicate Valid()
      reads this
    {
      Exec(log) == Some(State(open, closed)) && Inv(State(open, closed))
    }

    constructor ()
      ensures Valid() && log == []
    {
      open, closed, log := map[], [], [];
    }

    ghost method Note(e: Event, before: State)
      requires Exec(log) == Some(before) && Inv(before) && Next(before, e) == Some(State(open, closed))
      modifies this`log
      ensures Valid() && log == old(log) + [e]
    {
      assert (log + [e])[..|log|] == log;
      StepKeepsInv(before, e);
      log := log + [e];
    }

    /** True when the story closed its batch; a story that tripped a checkpoint enters no batch. */
    method SubmitStory(story: Story, checkpointTripped: bool) returns (batchClosed: bool)
      requires Valid()
      modifies this
      ensures Valid() && log == old(log) + [Submitted(story, checkpointTripped)]
      ensures checkpointTripped ==> open == old(open) && closed == old(closed) && !batchClosed
      ensures batchClosed ==> story.repo !in open && closed == old(closed) + [closed[|old(closed)|]]
                              && story in closed[|old(closed)|].stories
      ensures !checkpointTripped && !batchClosed ==> story.repo in open && story in open[story.repo].stories
      ensures !checkpointTripped ==> Next(State(old(open), old(closed)), Submitted(story, false)) == Some(State(open, closed))
      ensures forall repo :: repo != story.repo && repo in old(open) ==> repo in open && open[repo] == old(open[repo])
    {
      ghost var before := State(open, closed);
      if checkpointTripped {
        Note(Submitted(story, true), before);
        return false;
      }
      var now := story.completedAt;
      if story.repo !in open {
        open := open[story.repo := Batch(story.repo, now, [], None, 0)];
      }
      var batch := open[story.repo];
      batch := batch.(stories := batch.stories + [story]);
      open := open[story.repo := batch];
      assert open == before.open[story.repo := WithStory(before, story)];
      assert batch.stories[|batch.stories| - 1] == story;
      var reason := CloseReasonOf(batch, now);
      batchClosed := reason.Some?;
      if reason.Some? {
        CloseBatch(story.repo, reason.value, now);
      }
      Note(Submitted(story, false), before);
    }

    method CloseBatch(repo: Repo, reason: CloseReason, now: int)
      requires repo in open
      modifies this`open, this`closed
      ensures State(open, closed) == Close(State(old(open), old(closed)), repo, reason, now)
    {
      var batch := open[repo];
      open := open - {repo};
      closed := closed + [batch.(closed := Some(reason), closedAt := now)];
    }

    /** Afterwards no open batch is a day old; the younger ones are untouched. */
    method SweepAgeBasedClosures(now: int) returns (swept: seq<Repo>)
      requires Valid()
      modifies this
      ensures Valid() && old(log) <= log
      ensures forall repo :: repo in open <==> repo in old(open) && !Aged(old(open[repo]), now)
      ensures forall repo :: repo in open ==> open[repo] == old(open[repo])
      ensures forall repo :: repo in swept <==> repo in old(open) && Aged(old(open[repo]), now)
    {
      hide Exec, ClosedOk, Uniform;
      swept := [];
      var repos := open.Keys;
      while repos != {}
        invariant Valid() && old(log) <= log
        invariant forall repo :: repo in repos ==> repo in open && repo in old(open) && repo !in swept
        invariant forall repo :: repo in open ==> repo in old(open) && open[repo] == old(open[repo])
        invariant forall repo :: repo in old(open) && repo !in repos ==>
                    (repo in open <==> !Aged(old(open[repo]), now)) && (repo in swept <==> Aged(old(open[repo]), now))
        invariant forall repo :: repo in swept ==> repo in old(open)
        decreases |repos|
      {
        var repo :| repo in repos;
        repos := repos - {repo};
        assert OpenOk(State(open, closed), repo);
        var reason := CloseReasonOf(open[repo], now);
        if reason.Some? {
          ghost var before := State(open, closed);
          CloseBatch(repo, reason.value, now);
          Note(Swept(repo, now), before);
          swept := swept + [repo];
        }
      }
    }
  }
}
