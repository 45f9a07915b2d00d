/** Debouncing in the memory scheduler (`schedule` and `combineRequests`,
    model/job/mem_scheduler.go:230-286), and its agreement with the redis scheduler, which
    joins the listed payloads when it polls (model/job/redis_scheduler.go:315-331). */
module Debounce {
  import opened Options
  import opened Text
  import RedisScheduler

  /** The three ways a trigger combines requests. */
  datatype Mode = Append | Suppress | Original

  /** What a job request carries: no payload when the request is made anew. */
  type Payload = Option<string>

  const PREFIX := "{\"payloads\":["
  const SUFFIX := "]}"

  function Wrap(text: string): string {
    PREFIX + text + SUFFIX
  }

  /** `combineRequests` with a second request: the closing brackets are cut and put back. */
  function AppendTo(was: string, payload: string): string
    requires |was| >= 2
  {
    was[..|was| - 2] + "," + payload + SUFFIX
  }

  function Combine(mode: Mode, req1: string, req2: Option<string>): Payload
    requires mode.Append? && req2.Some? ==> |req1| >= 2
  {
    match mode
    case Append => Some(if req2.None? then Wrap(req1) else AppendTo(req1, req2.value))
    case Suppress => None
    case Original => Some(req1)
  }

  /** Folding `combineRequests` over the payloads of a window, the first one alone. */
  function Folded(payloads: seq<string>): (text: string)
    requires payloads != []
    ensures |text| >= 2
    decreases |payloads|
  {
    var n := |payloads| - 1;
    if n == 0 then Wrap(payloads[0]) else AppendTo(Folded(payloads[..n]), payloads[n])
  }

  /** The fold is the join of the payloads. */
  lemma {:induction false} FoldIsJoin(payloads: seq<string>)
    requires payloads != []
    ensures Folded(payloads) == Wrap(Join(payloads, ","))
    decreases |payloads|
  {
    var n := |payloads| - 1;
    if n > 0 {
      var before := payloads[..n];
      FoldIsJoin(before);
      assert payloads == before + [payloads[n]];
      JoinSnoc(before, payloads[n], ",");
      AppendToWrapped(Join(before, ","), payloads[n]);
    }
  }

  lemma AppendToWrapped(text: string, payload: string)
    ensures |Wrap(text)| >= 2
    ensures AppendTo(Wrap(text), payload) == Wrap(text + "," + payload)
  {
    var was := Wrap(text);
    assert was[..|was| - 2] == PREFIX + text;
    assert PREFIX + text + "," + payload + SUFFIX == PREFIX + (text + "," + payload) + SUFFIX;
  }

  /** Both schedulers give the job of a webhook the same text for the same payloads. */
  lemma SchedulersAgree(key: string, payloads: seq<string>)
    requires payloads != []
    ensures RedisScheduler.DebouncedPayload(RedisScheduler.WebhookTrigger, map[key := payloads], key)
         == Some(Folded(payloads))
  {
    FoldIsJoin(payloads);
    assert RedisScheduler.DebouncedPayload(RedisScheduler.WebhookTrigger, map[key := payloads], key)
        == Some("{\"payloads\":[" + Join(payloads, ",") + "]}");
  }

  // ---------------------------------------------------------------- the loop

  /** What the loop of `schedule` receives: a request, or the end of the debounce timer. */
  datatype Event = Request(payload: string) | Timer

  /** The payloads grouped by timer, and those of the timer still running. */
  datatype Windows = Windows(closed: seq<seq<string>>, pending: seq<string>)

  function Group(events: seq<Event>): Windows
    decreases |events|
  {
    if events == [] then Windows([], []) else
    var n := |events| - 1;
    var w := Group(events[..n]);
    match events[n]
    case Request(payload) => w.(pending := w.pending + [payload])
    case Timer => if w.pending == [] then w else Windows(w.closed + [w.pending], [])
  }

  function Flat(parts: seq<seq<string>>): seq<string>
    decreases |parts|
  {
    if parts == [] then [] else Flat(parts[..|parts| - 1]) + parts[|parts| - 1]
  }

  function Requests(events: seq<Event>): seq<string>
    decreases |events|
  {
    if events == [] then [] else
    var n := |events| - 1;
    Requests(events[..n]) + if events[n].Request? then [events[n].payload] else []
  }

  /** No payload is lost, repeated or reordered, and no window is empty. */
  lemma {:induction false} WindowsConserve(events: seq<Event>)
    ensures Flat(Group(events).closed) + Group(events).pending == Requests(events)
    ensures forall i :: 0 <= i < |Group(events).closed| ==> Group(events).closed[i] != []
    decreases |events|
  {
    if events != [] {
      var n := |events| - 1;
      var w := Group(events[..n]);
      WindowsConserve(events[..n]);
      if events[n].Request? {
        assert Flat(w.closed) + (w.pending + [events[n].payload])
            == (Flat(w.closed) + w.pending) + [events[n].payload];
      } else {
        assert Requests(events) == Requests(events[..n]);
        FlatSnoc(w.closed, w.pending);
      }
    }
  }

  lemma FlatSnoc(parts: seq<seq<string>>, last: seq<string>)
    ensures Flat(parts + [last]) + [] == Flat(parts) + last
  {
    assert (parts + [last])[..|parts|] == parts;
  }

  /** The requests between the timers, from the first one on. */
  function Segments(events: seq<Event>): (segments: seq<seq<string>>)
    ensures segments != []
    decreases |events|
  {
    if events == [] then [[]] else
    var rest := Segments(events[1..]);
    match events[0]
    case Timer => [[]] + rest
    case Request(payload) => [[payload] + rest[0]] + rest[1..]
  }

  /** The segments after one more event. */
  function Extended(s: seq<seq<string>>, e: Event): seq<seq<string>>
    requires s != []
  {
    match e
    case Timer => s + [[]]
    case Request(payload) => s[..|s| - 1] + [s[|s| - 1] + [payload]]
  }

  lemma OneEvent(e: Event)
    ensures Segments([e]) == Extended([[]], e)
  {
    assert Segments([]) == [[]] && [e][1..] == [];
    if e.Request? {
      assert [e.payload] + [] == [] + [e.payload];
    }
  }

  lemma {:induction false} OneMoreEvent(events: seq<Event>, e: Event)
    ensures Segments(events + [e]) == Extended(Segments(events), e)
    decreases |events|
  {
    if events == [] {
      OneEvent(e);
      assert events + [e] == [e];
    } else {
      OneMoreEvent(events[1..], e);
      FirstEvent(events, e);
      if e.Request? && events[0].Request? {
        GrowFirst(Segments(events[1..]), events[0].payload, e.payload);
      }
    }
  }

  lemma FirstEvent(events: seq<Event>, e: Event)
    requires events != []
    ensures (events + [e])[0] == events[0] && (events + [e])[1..] == events[1..] + [e]
  {
  }

  /** Adding a request in front of the first segment and one at the end of the last one. */
  lemma GrowFirst(s: seq<seq<string>>, first: string, last: string)
    requires s != []
    ensures var grown := s[..|s| - 1] + [s[|s| - 1] + [last]];
            var front := [[first] + s[0]] + s[1..];
            [[first] + grown[0]] + grown[1..] == front[..|front| - 1] + [front[|front| - 1] + [last]]
  {
    var grown := s[..|s| - 1] + [s[|s| - 1] + [last]];
    var front := [[first] + s[0]] + s[1..];
    if |s| == 1 {
      assert [first] + (s[0] + [last]) == ([first] + s[0]) + [last];
    } else {
      assert grown[0] == s[0] && grown[1..] == s[1..|s| - 1] + [s[|s| - 1] + [last]];
    }
  }

  function Filled(segments: seq<seq<string>>): seq<seq<string>>
    decreases |segments|
  {
    if segments == [] then [] else
    var n := |segments| - 1;
    if segments[n] == [] then Filled(segments[..n]) else Filled(segments[..n]) + [segments[n]]
  }

  /** The windows are the requests between two timers, when there are some; those after the last
      timer are pending. */
  lemma {:induction false} WindowsBetweenTimers(events: seq<Event>)
    ensures var s := Segments(events);
            Group(events).closed == Filled(s[..|s| - 1]) && Group(events).pending == s[|s| - 1]
    decreases |events|
  {
    if events != [] {
      var n := |events| - 1;
      WindowsBetweenTimers(events[..n]);
      OneMoreEvent(events[..n], events[n]);
      assert events[..n] + [events[n]] == events;
      var s, s' := Segments(events[..n]), Segments(events);
      if events[n].Timer? {
        assert s'[..|s'| - 1] == s;
      } else {
        assert s'[..|s'| - 1] == s[..|s| - 1];
      }
    }
  }

  /** The payload of the job of a window. */
  function JobOf(mode: Mode, window: seq<string>): Payload
    requires window != []
  {
    match mode
    case Append => Some(Wrap(Join(window, ",")))
    case Suppress => None
    case Original => Some(window[0])
  }

  function JobsOf(mode: Mode, windows: seq<seq<string>>): seq<Payload>
    requires forall i :: 0 <= i < |windows| ==> windows[i] != []
    decreases |windows|
  {
    if windows == [] then [] else
    var n := |windows| - 1;
    JobsOf(mode, windows[..n]) + [JobOf(mode, windows[n])]
  }

  lemma {:induction false} JobsAt(mode: Mode, windows: seq<seq<string>>)
    requires forall i :: 0 <= i < |windows| ==> windows[i] != []
    ensures |JobsOf(mode, windows)| == |windows|
    ensures forall i :: 0 <= i < |windows| ==>
              && (mode.Append? ==> JobsOf(mode, windows)[i] == Some("{\"payloads\":[" + Join(windows[i], ",") + "]}"))
              && (mode.Suppress? ==> JobsOf(mode, windows)[i] == None)
              && (mode.Original? ==> JobsOf(mode, windows)[i] == Some(windows[i][0]))
    decreases |windows|
  {
    if windows != [] {
      JobsAt(mode, windows[..|windows| - 1]);
    }
  }

  lemma CombinedJob(mode: Mode, window: seq<string>, payload: string)
    requires window != []
    ensures mode.Append? ==> |Wrap(Join(window, ","))| >= 2
    ensures JobOf(mode, window + [payload])
         == Combine(mode, if mode.Append? then Wrap(Join(window, ",")) else window[0], Some(payload))
  {
    if mode.Append? {
      JoinSnoc(window, payload, ",");
      AppendToWrapped(Join(window, ","), payload);
    }
  }

  /** The loop of `schedule` over the events it receives: with a debounce, one job per window,
      combining its payloads; without, one job per request. */
  method Schedule(mode: Mode, debounced: bool, events: seq<Event>) returns (pushed: seq<Payload>)
    ensures forall i :: 0 <= i < |Group(events).closed| ==> Group(events).closed[i] != []
    ensures debounced ==> pushed == JobsOf(mode, Group(events).closed)
    ensures debounced ==> |pushed| == |Group(events).closed|
    ensures debounced && mode.Append? ==> forall i :: 0 <= i < |pushed| ==>
              pushed[i] == Some("{\"payloads\":[" + Join(Group(events).closed[i], ",") + "]}")
    ensures debounced && mode.Suppress? ==> forall i :: 0 <= i < |pushed| ==> pushed[i] == None
    ensures debounced && mode.Original? ==> forall i :: 0 <= i < |pushed| ==> pushed[i] == Some(Group(events).closed[i][0])
    ensures debounced ==> Group(events).closed == Filled(Segments(events)[..|Segments(events)| - 1])
    ensures !debounced ==> |pushed| == |Requests(events)|
    ensures !debounced ==> forall i :: 0 <= i < |pushed| ==> pushed[i] == Some(Requests(events)[i])
  {
    pushed := [];
    var timer := false;
    var combined: Payload := None;
    ghost var w := Windows([], []);
    for i := 0 to |events|
      invariant w == Group(events[..i])
      invariant forall j :: 0 <= j < |w.closed| ==> w.closed[j] != []
      invariant debounced ==> timer == (w.pending != []) && pushed == JobsOf(mode, w.closed)
      invariant debounced && timer ==> combined == JobOf(mode, w.pending)
      invariant !debounced ==> !timer && |pushed| == |Requests(events[..i])|
      invariant !debounced ==> forall j :: 0 <= j < |pushed| ==> pushed[j] == Some(Requests(events[..i])[j])
    {
      assert events[..i + 1][..i] == events[..i];
      match events[i] {
        case Request(payload) =>
          if !debounced {
            pushed := pushed + [Some(payload)];
          } else if !timer {
            timer := true;
            combined := Combine(mode, payload, None);
            assert w.pending + [payload] == [payload];
          } else {
            CombinedJob(mode, w.pending, payload);
            combined := if combined.None? then None else Combine(mode, combined.value, Some(payload));
          }
          w := w.(pending := w.pending + [payload]);
        case Timer =>
          if timer {
            assert (w.closed + [w.pending])[..|w.closed|] == w.closed;
            pushed := pushed + [combined];
            timer, combined := false, None;
          }
          w := if w.pending == [] then w else Windows(w.closed + [w.pending], []);
      }
    }
    assert events[..|events|] == events;
    WindowsBetweenTimers(events);
    if debounced {
      JobsAt(mode, w.closed);
    }
  }
}
