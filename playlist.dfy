/** The playlist demo's `QueueManager`: a queue of stream URLs still to play, the URL playing now
    and a history of those already played, kept by the skill itself because AudioPlayer requests
    carry none of it.

    `QueueState` is the manager's state as a value and the functions over it say what each
    operation does to it; the class `QueueManager` holds the same state in fields and its methods
    are proved to move it exactly as those functions say. */
module QueueStates {
  import opened Outcomes

  /** Python truthiness of the current URL: `None` and `''` are false. */
  predicate Truthy(url: Option<string>) {
    url.Some? && url.value != ""
  }

  /** The queue may hold `None`: `step_back` pushes whatever was current, set or not. */
  datatype QueueState = QueueState(
    urls: seq<string>,
    queued: seq<Option<string>>,
    history: seq<string>,
    current: Option<string>)

  function Queue(urls: seq<string>): (r: seq<Option<string>>)
    ensures |r| == |urls|
    ensures forall i :: 0 <= i < |urls| ==> r[i] == Some(urls[i])
  {
    if urls == [] then [] else [Some(urls[0])] + Queue(urls[1..])
  }

  lemma {:induction false} QueueAppend(a: seq<string>, b: seq<string>)
    ensures Queue(a + b) == Queue(a) + Queue(b)
  {
    assert |Queue(a + b)| == |Queue(a) + Queue(b)|;
    forall i | 0 <= i < |a| + |b|
      ensures Queue(a + b)[i] == (Queue(a) + Queue(b))[i]
    {
      if i < |a| {
        assert (a + b)[i] == a[i];
      } else {
        assert (a + b)[i] == b[i - |a|];
      }
    }
  }

  /** `__init__`: everything queued, nothing played, nothing current. */
  function Initial(urls: seq<string>): (r: QueueState)
    ensures r.urls == urls && r.history == [] && r.current == None
    ensures |r.queued| == |urls| && forall i :: 0 <= i < |urls| ==> r.queued[i] == Some(urls[i])
  {
    QueueState(urls, Queue(urls), [], None)
  }

  /** `_save_to_history`: the history with the current URL appended when it is truthy. */
  function Archived(s: QueueState): seq<string> {
    if Truthy(s.current) then s.history + [s.current.value] else s.history
  }

  /** The state after an operation together with what it returned or raised; the state counts
      even when it raised, since the Python methods mutate before they fail. */
  datatype Stepped = Stepped(state: QueueState, result: Outcome<Option<string>>)

  /** The `current` setter. */
  function SetCurrent(s: QueueState, url: Option<string>): (r: QueueState)
    ensures r.current == url && r.urls == s.urls && r.queued == s.queued
    ensures CurrentPosition(r) == CurrentPosition(s) + (if Truthy(s.current) then 1 else 0)
    ensures r.history[..|s.history|] == s.history
    ensures HistoryKept(s) ==> HistoryKept(r)
  {
    s.(history := Archived(s), current := url)
  }

  function EndCurrent(s: QueueState): (r: QueueState)
    ensures r.current == None && r.urls == s.urls && r.queued == s.queued
    ensures CurrentPosition(r) == CurrentPosition(s) + (if Truthy(s.current) then 1 else 0)
    ensures r.history[..|s.history|] == s.history
    ensures HistoryKept(s) ==> HistoryKept(r)
  {
    s.(history := Archived(s), current := None)
  }

  /** `step`: archive the current URL, then pop the front of the queue into current; on an empty
      queue `popleft` raises after the archiving, leaving current unset. */
  function Step(s: QueueState): (r: Stepped)
    ensures r.result.Ok? <==> |s.queued| > 0
    ensures r.result.Raise? ==> r.result.error == IndexError && r.state.current == None && r.state.queued == []
    ensures r.result.Ok? ==> r.result.value == s.queued[0] == r.state.current && r.state.queued == s.queued[1..]
    ensures r.state.urls == s.urls && r.state.history == Archived(s)
  {
    var ended := EndCurrent(s);
    if |s.queued| == 0 then Stepped(ended, Raise(IndexError))
    else Stepped(ended.(queued := s.queued[1..], current := s.queued[0]), Ok(s.queued[0]))
  }

  /** `step_back`: push the current URL back onto the front of the queue, then pop the last history
      entry into current; on an empty history `pop` raises after the push. */
  function StepBack(s: QueueState): (r: Stepped)
    ensures r.result.Ok? <==> |s.history| > 0
    ensures r.result.Raise? ==> r.result.error == IndexError && r.state.current == s.current && r.state.history == []
    ensures r.result.Ok? ==>
              r.result.value == r.state.current == Some(s.history[|s.history| - 1]) &&
              r.state.history + [s.history[|s.history| - 1]] == s.history
    ensures r.state.urls == s.urls && r.state.queued == [s.current] + s.queued
  {
    var pushed := s.(queued := [s.current] + s.queued);
    if |s.history| == 0 then Stepped(pushed, Raise(IndexError))
    else
      var last := s.history[|s.history| - 1];
      Stepped(pushed.(history := s.history[..|s.history| - 1], current := Some(last)), Ok(Some(last)))
  }

  function Add(s: QueueState, url: string): (r: QueueState)
    ensures r.urls == s.urls + [url] && r.history == s.history && r.current == s.current
    ensures |r.queued| == |s.queued| + 1 && r.queued[..|s.queued|] == s.queued && r.queued[|s.queued|] == Some(url)
    ensures |s.queued| > 0 ==> UpNext(r) == UpNext(s)
  {
    s.(urls := s.urls + [url], queued := s.queued + [Some(url)])
  }

  function Extend(s: QueueState, urls: seq<string>): (r: QueueState)
    ensures r.urls == s.urls + urls && r.history == s.history && r.current == s.current
    ensures |r.queued| == |s.queued| + |urls| && r.queued[..|s.queued|] == s.queued
    ensures forall i :: 0 <= i < |urls| ==> r.queued[|s.queued| + i] == Some(urls[i])
  {
    s.(urls := s.urls + urls, queued := s.queued + Queue(urls))
  }

  /** `reset`: requeue every URL and forget the history; current is left as it is. */
  function Reset(s: QueueState): (r: QueueState)
    ensures r.urls == s.urls && r.current == s.current && r.history == []
    ensures |r.queued| == |s.urls| && forall i :: 0 <= i < |s.urls| ==> r.queued[i] == Some(s.urls[i])
  {
    s.(queued := Queue(s.urls), history := [])
  }

  /** `start`: re-initialise from the URLs and step once. */
  function Start(s: QueueState): (r: Stepped)
    ensures r.result.Ok? <==> |s.urls| > 0
    ensures r.result.Ok? ==> r.result.value == Some(s.urls[0])
    ensures r.state.urls == s.urls && r.state.history == []
  {
    Step(Initial(s.urls))
  }

  /** `up_next`: the front of the queue, `None` when the queue is empty. */
  function UpNext(s: QueueState): (r: Option<string>)
    ensures |s.queued| == 0 ==> r == None
    ensures |s.queued| > 0 ==> r == s.queued[0]
  {
    if |s.queued| == 0 then None else s.queued[0]
  }

  /** `previous`: the last history entry, `None` when there is no history. */
  function Previous(s: QueueState): (r: Option<string>)
    ensures r.None? <==> |s.history| == 0
    ensures r.Some? ==> r.value == s.history[|s.history| - 1]
  {
    if |s.history| == 0 then None else Some(s.history[|s.history| - 1])
  }

  function CurrentPosition(s: QueueState): (r: nat)
    ensures r >= 1 && r - 1 == |s.history|
  {
    |s.history| + 1
  }

  /** The `status` property's dictionary, one field per key. */
  datatype Status = Status(
    position: nat, currentUrl: Option<string>, nextUrl: Option<string>,
    previous: Option<string>, history: seq<string>)

  function StatusOf(s: QueueState): (r: Status)
    ensures r.position == |s.history| + 1 && r.history == s.history && r.currentUrl == s.current
    ensures r.nextUrl == UpNext(s) && r.previous == Previous(s)
  {
    Status(CurrentPosition(s), s.current, UpNext(s), Previous(s), s.history)
  }

  /** Only truthy URLs are ever archived, so no history entry is empty. */
  predicate HistoryKept(s: QueueState) {
    forall i :: 0 <= i < |s.history| ==> s.history[i] != ""
  }

  /** Every URL the manager knows of, in play order: the history, the current URL when set, then
      the queue. */
  function Timeline(s: QueueState): seq<Option<string>> {
    Queue(s.history) + (if Truthy(s.current) then [s.current] else []) + s.queued
  }

  // ---------------------------------------------------------------------------------------------
  // Properties of the operations

  /** A step from a set current URL is undone by a step back. */
  lemma StepBackUndoesStep(s: QueueState)
    requires Truthy(s.current) && |s.queued| > 0
    ensures Step(s).result == Ok(s.queued[0])
    ensures StepBack(Step(s).state) == Stepped(s, Ok(s.current))
  {
    var t := Step(s).state;
    assert t.history == s.history + [s.current.value];
    assert t.history[..|t.history| - 1] == s.history;
    assert [t.current] + t.queued == s.queued;
  }

  /** A step back is undone by a step whenever the history is non-empty, whatever was current:
      the URL restored from history is truthy, so the step archives it again. */
  lemma StepUndoesStepBack(s: QueueState)
    requires HistoryKept(s) && |s.history| > 0
    ensures Step(StepBack(s).state) == Stepped(s, Ok(s.current))
  {
    var t := StepBack(s).state;
    assert |t.queued| > 0 && t.queued[1..] == s.queued;
    assert s.history[..|s.history| - 1] + [s.history[|s.history| - 1]] == s.history;
  }

  /** The position advances by one on a step exactly when the old current URL was set. */
  lemma StepPosition(s: QueueState)
    ensures CurrentPosition(Step(s).state) == CurrentPosition(s) + (if Truthy(s.current) then 1 else 0)
    ensures Previous(Step(s).state) == (if Truthy(s.current) then s.current else Previous(s))
  {
  }

  /** A step on an empty queue raises, but only after archiving: the current URL is in the
      history and nothing is current. */
  lemma StepOnEmptyQueue(s: QueueState)
    requires |s.queued| == 0
    ensures Step(s).result == Raise(IndexError)
    ensures Step(s).state.current == None && Step(s).state.history == Archived(s)
    ensures Step(s).state.queued == [] && Step(s).state.urls == s.urls
  {
  }

  /** A step back with no history raises after the push: the queue has grown by the old current
      URL, which is still current. */
  lemma StepBackOnEmptyHistory(s: QueueState)
    requires |s.history| == 0
    ensures StepBack(s).result == Raise(IndexError)
    ensures StepBack(s).state.queued == [s.current] + s.queued
    ensures StepBack(s).state.current == s.current && StepBack(s).state.history == []
  {
  }

  /** A step loses and invents nothing unless it pops an unset entry off the queue: the play
      order is unchanged. */
  lemma {:induction false} StepKeepsTimeline(s: QueueState)
    requires |s.queued| == 0 || Truthy(s.queued[0])
    ensures Timeline(Step(s).state) == Timeline(s)
  {
    var t := Step(s).state;
    if Truthy(s.current) {
      QueueAppend(s.history, [s.current.value]);
      assert Queue([s.current.value]) == [s.current];
    }
    assert Queue(t.history) == Queue(s.history) + (if Truthy(s.current) then [s.current] else []);
    if |s.queued| > 0 {
      assert [s.queued[0]] + s.queued[1..] == s.queued;
    }
  }

  /** A step back from a set current URL keeps the play order too. */
  lemma {:induction false} StepBackKeepsTimeline(s: QueueState)
    requires HistoryKept(s) && Truthy(s.current) && |s.history| > 0
    ensures Timeline(StepBack(s).state) == Timeline(s)
  {
    var t := StepBack(s).state;
    var n := |s.history|;
    assert s.history == s.history[..n - 1] + [s.history[n - 1]];
    QueueAppend(s.history[..n - 1], [s.history[n - 1]]);
    assert Queue([s.history[n - 1]]) == [Some(s.history[n - 1])];
  }

  /** Every operation keeps the history free of empty entries. */
  lemma OperationsKeepHistory(s: QueueState, url: Option<string>, u: string, us: seq<string>)
    requires HistoryKept(s)
    ensures HistoryKept(Initial(s.urls)) && HistoryKept(SetCurrent(s, url)) && HistoryKept(EndCurrent(s))
    ensures HistoryKept(Step(s).state) && HistoryKept(StepBack(s).state) && HistoryKept(Start(s).state)
    ensures HistoryKept(Add(s, u)) && HistoryKept(Extend(s, us)) && HistoryKept(Reset(s))
  {
  }

  /** `start` plays the first URL from a fresh queue, or raises on an empty playlist. */
  lemma StartPlaysFirst(s: QueueState)
    ensures |s.urls| == 0 ==> Start(s).result == Raise(IndexError)
    ensures |s.urls| > 0 ==> Start(s).result == Ok(Some(s.urls[0]))
    ensures Start(s).state.history == [] && Start(s).state.urls == s.urls
    ensures CurrentPosition(Start(s).state) == 1
    ensures forall i :: 0 <= i < |Start(s).state.queued| ==> Start(s).state.queued[i] == Some(s.urls[i + 1])
  {
  }

  /** `reset` puts the first URL back at the front and clears the history, keeping current. */
  lemma ResetRequeues(s: QueueState)
    ensures UpNext(Reset(s)) == (if |s.urls| == 0 then None else Some(s.urls[0]))
    ensures Previous(Reset(s)) == None && CurrentPosition(Reset(s)) == 1
    ensures Reset(s).current == s.current
  {
  }

  /** Appending URLs queues them behind everything already queued, in order. */
  lemma {:induction false} ExtendQueuesInOrder(s: QueueState, urls: seq<string>)
    ensures Extend(s, urls).queued[..|s.queued|] == s.queued
    ensures forall i :: 0 <= i < |urls| ==> Extend(s, urls).queued[|s.queued| + i] == Some(urls[i])
    ensures Reset(Extend(s, urls)) == Reset(s).(urls := s.urls + urls, queued := Queue(s.urls) + Queue(urls))
  {
    QueueAppend(s.urls, urls);
  }
}

/** The `QueueManager` class itself, its fields the attributes of the Python object. */
module Playlist {
  import opened Outcomes
  import Q = QueueStates

  class QueueManager {
    var urls: seq<string>
    var queued: seq<Option<string>>
    var history: seq<string>
    var current: Option<string>

    function State(): Q.QueueState
      reads this
    {
      Q.QueueState(urls, queued, history, current)
    }

    constructor(urls: seq<string>)
      ensures State() == Q.Initial(urls)
    {
      this.urls := urls;
      this.queued := Q.Queue(urls);
      this.history := [];
      this.current := None;
    }

    function UpNext(): (r: Option<string>)
      reads this
      ensures r == Q.UpNext(State())
    {
      if |queued| == 0 then None else queued[0]
    }

    function Previous(): (r: Option<string>)
      reads this
      ensures r == Q.Previous(State())
    {
      if |history| == 0 then None else Some(history[|history| - 1])
    }

    function CurrentPosition(): (r: nat)
      reads this
      ensures r == Q.CurrentPosition(State())
    {
      |history| + 1
    }

    function Status(): (r: Q.Status)
      reads this
      ensures r == Q.StatusOf(State())
    {
      Q.Status(CurrentPosition(), current, UpNext(), Previous(), history)
    }

    method SaveToHistory()
      modifies this
      ensures State() == old(State()).(history := Q.Archived(old(State())))
    {
      if current.Some? && current.value != "" {
        history := history + [current.value];
      }
    }

    method SetCurrent(url: Option<string>)
      modifies this
      ensures State() == Q.SetCurrent(old(State()), url)
    {
      SaveToHistory();
      current := url;
    }

    method EndCurrent()
      modifies this
      ensures State() == Q.EndCurrent(old(State()))
    {
      SaveToHistory();
      current := None;
    }

    method Add(url: string)
      modifies this
      ensures State() == Q.Add(old(State()), url)
    {
      urls := urls + [url];
      queued := queued + [Some(url)];
    }

    method Extend(more: seq<string>)
      modifies this
      ensures State() == Q.Extend(old(State()), more)
    {
      urls := urls + more;
      queued := queued + Q.Queue(more);
    }

    method Step() returns (r: Outcome<Option<string>>)
      modifies this
      ensures Q.Stepped(State(), r) == Q.Step(old(State()))
    {
      EndCurrent();
      if |queued| == 0 {
        return Raise(IndexError);
      }
      current := queued[0];
      queued := queued[1..];
      return Ok(current);
    }

    method StepBack() returns (r: Outcome<Option<string>>)
      modifies this
      ensures Q.Stepped(State(), r) == Q.StepBack(old(State()))
    {
      queued := [current] + queued;
      if |history| == 0 {
        return Raise(IndexError);
      }
      current := Some(history[|history| - 1]);
      history := history[..|history| - 1];
      return Ok(current);
    }

    method Reset()
      modifies this
      ensures State() == Q.Reset(old(State()))
    {
      queued := Q.Queue(urls);
      history := [];
    }

    method Start() returns (r: Outcome<Option<string>>)
      modifies this
      ensures Q.Stepped(State(), r) == Q.Start(old(State()))
    {
      queued := Q.Queue(urls);
      history := [];
      current := None;
      r := Step();
    }
  }
}
