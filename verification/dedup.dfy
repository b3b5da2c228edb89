/**
 * What the pushed-id set guarantees over a whole stream of posts handled by one
 * analyzer: ids enter the set only through acknowledged pushes, every
 * acknowledged push is remembered, and no id is pushed successfully twice.
 */
module Dedup {

  import opened Wrappers
  import opened Text
  import opened StockAnalysis

  /**
   * One post as the orchestrator sees it, with what the classifier would answer
   * for it and what a push of it would answer.
   */
  datatype Event = Event(id: string, text: string, prior: Option<Analysis>, verdict: Analysis, delivered: bool)

  /** The pushed-id set after a stream, and the path taken for each post. */
  datatype Trace = Trace(pushed: set<string>, paths: seq<Path>)

  /** The path of a post that was pushed and acknowledged. */
  predicate Delivered(p: Path) {
    p.Classified? && p.push == Some(true)
  }

  /** Handles the posts of `events` in order, starting from the set `pushed`. */
  function Run(enabled: bool, pushed: set<string>, events: seq<Event>): (t: Trace)
    ensures |t.paths| == |events|
    ensures pushed <= t.pushed
    decreases |events|
  {
    if events == [] then Trace(pushed, [])
    else
      var e := events[0];
      var o := Step(enabled, pushed, e.id, e.text, e.prior, e.verdict, e.delivered);
      var rest := Run(enabled, o.pushed, events[1..]);
      Trace(rest.pushed, [o.path] + rest.paths)
  }

  /** Every id the stream adds to the set belongs to a post that was pushed and acknowledged. */
  lemma {:induction false} OnlyDeliveredIdsAdded(enabled: bool, pushed: set<string>, events: seq<Event>, x: string)
    requires x in Run(enabled, pushed, events).pushed && x !in pushed
    ensures exists i :: 0 <= i < |events| && Delivered(Run(enabled, pushed, events).paths[i]) && events[i].id == x
    decreases |events|
  {
    var t := Run(enabled, pushed, events);
    var e := events[0];
    var o := Step(enabled, pushed, e.id, e.text, e.prior, e.verdict, e.delivered);
    var rest := Run(enabled, o.pushed, events[1..]);
    if x in o.pushed {
      assert Delivered(t.paths[0]) && events[0].id == x;
    } else {
      OnlyDeliveredIdsAdded(enabled, o.pushed, events[1..], x);
      var i :| 0 <= i < |events[1..]| && Delivered(rest.paths[i]) && events[1..][i].id == x;
      assert t.paths[i + 1] == rest.paths[i];
    }
  }

  /** Every post that was pushed and acknowledged has its id in the final set. */
  lemma {:induction false} DeliveredIdsRecorded(enabled: bool, pushed: set<string>, events: seq<Event>, i: nat)
    requires i < |events| && Delivered(Run(enabled, pushed, events).paths[i])
    ensures events[i].id in Run(enabled, pushed, events).pushed
    decreases |events|
  {
    var e := events[0];
    var o := Step(enabled, pushed, e.id, e.text, e.prior, e.verdict, e.delivered);
    var rest := Run(enabled, o.pushed, events[1..]);
    if i > 0 {
      assert rest.paths[i - 1] == Run(enabled, pushed, events).paths[i];
      DeliveredIdsRecorded(enabled, o.pushed, events[1..], i - 1);
    }
  }

  /**
   * A post whose id is already in the set is short-circuited: it is neither
   * classified nor pushed, however many posts came before it.
   */
  lemma {:induction false} KnownIdShortCircuits(enabled: bool, pushed: set<string>, events: seq<Event>, k: nat)
    requires k < |events| && events[k].id != "" && events[k].id in pushed
    ensures Run(enabled, pushed, events).paths[k] == (if enabled && events[k].text != "" then Duplicate else Inactive)
    decreases |events|
  {
    var e := events[0];
    var o := Step(enabled, pushed, e.id, e.text, e.prior, e.verdict, e.delivered);
    if k > 0 {
      KnownIdShortCircuits(enabled, o.pushed, events[1..], k - 1);
      assert Run(enabled, pushed, events).paths[k] == Run(enabled, o.pushed, events[1..]).paths[k - 1];
    }
  }

  /**
   * Once a post has been pushed and acknowledged, every later post with the same
   * id is short-circuited, so no id is pushed successfully twice.
   */
  lemma {:induction false} NoRepeatedPush(enabled: bool, pushed: set<string>, events: seq<Event>, i: nat, j: nat)
    requires i < j < |events|
    requires Delivered(Run(enabled, pushed, events).paths[i])
    requires events[j].id == events[i].id
    ensures Run(enabled, pushed, events).paths[j] == (if events[j].text != "" then Duplicate else Inactive)
    ensures !Delivered(Run(enabled, pushed, events).paths[j])
    decreases |events|
  {
    var t := Run(enabled, pushed, events);
    var e := events[0];
    var o := Step(enabled, pushed, e.id, e.text, e.prior, e.verdict, e.delivered);
    var rest := Run(enabled, o.pushed, events[1..]);
    assert t.paths[j] == rest.paths[j - 1];
    if i == 0 {
      assert enabled && e.id != "" && e.id in o.pushed;
      KnownIdShortCircuits(enabled, o.pushed, events[1..], j - 1);
    } else {
      assert t.paths[i] == rest.paths[i - 1];
      NoRepeatedPush(enabled, o.pushed, events[1..], i - 1, j - 1);
    }
  }

  /** A related post is pushed once; the same id arriving again is short-circuited. */
  method RepeatedPostScenario() {
    var config := StockConfig(Some(true), Some("key"), Some("https://hook"), None, None);
    var analyzer := new StockAnalyzer(Some(config));
    var convert := (f: TimeFormat, raw: string) => None;
    var replies := [Fault, Reply("利好")];
    assert LeadingSpaces("利好") == 0 && TrailingSpaces("利好") == 0;
    assert !Contains("利好", NotRelevantMarker);
    assert Verdict("利好") == Analysis(true, "利好");
    assert FirstReply(replies, 0, 3) == Some(1);
    var first := new Post("5001", "茅台大涨", "42", "garbage", None);
    var r, path := analyzer.AnalyzeAndPush(first, replies, convert, Answered(200, Some(0)));
    assert path == Classified(Analysis(true, "利好"), Some(true));
    assert analyzer.pushedIds == {"5001"};
    var again := new Post("5001", "茅台大涨", "42", "garbage", None);
    r, path := analyzer.AnalyzeAndPush(again, [], convert, TransportFault);
    assert path == Duplicate;
    assert again.stockAnalysis == Some(AlreadyPushed);
    assert analyzer.pushedIds == {"5001"};
  }
}
