/**
 * The backend side of a frontend plot (Plot) and the registry of plots
 * (PlotsService). A plot's comm is modelled by the messages it sends to
 * the frontend, in order.
 */
module Plots {

  import opened Wrappers

  /** A message a plot's comm sends to the frontend. */
  datatype CommMessage =
    | CommOpen
    | CommClose
    | ShowEvent
    | UpdateEvent
    | RenderResult(data: string, mimeType: string)

  /** MIME_TYPE: the image formats a plot can be rendered to. */
  function MimeType(format: string): (r: Option<string>)
    ensures r.Some? <==> format in {"png", "svg", "pdf", "jpeg"}
  {
    if format == "png" then Some("image/png")
    else if format == "svg" then Some("image/svg+xml")
    else if format == "pdf" then Some("application/pdf")
    else if format == "jpeg" then Some("image/jpeg")
    else None
  }

  /**
   * The frontend's view of one message arriving when the comm is closed
   * (`closed`) or open: opening needs a closed comm, closing an open one,
   * and Show/Update events are only meaningful on an open comm. None
   * means the message is out of place.
   */
  function Accept(closed: bool, m: CommMessage): Option<bool>
  {
    match m
    case CommOpen => if closed then Some(false) else None
    case CommClose => if closed then None else Some(true)
    case ShowEvent => if closed then None else Some(false)
    case UpdateEvent => if closed then None else Some(false)
    case RenderResult(_, _) => Some(closed)
  }

  /** Replays a message log from a comm in state `closed`; None if some message is out of place. */
  function Replay(closed: bool, log: seq<CommMessage>): Option<bool>
    decreases |log|
  {
    if log == [] then Some(closed)
    else
      match Accept(closed, log[0])
      case None => None
      case Some(c) => Replay(c, log[1..])
  }

  /** Number of occurrences of `m` in `log`. */
  function Count(log: seq<CommMessage>, m: CommMessage): nat
  {
    if log == [] then 0 else (if log[0] == m then 1 else 0) + Count(log[1..], m)
  }

  /** Replaying a log extended by one message is replaying the log, then accepting the message. */
  lemma {:induction false} ReplaySnoc(closed: bool, log: seq<CommMessage>, m: CommMessage)
    ensures Replay(closed, log + [m]) ==
      match Replay(closed, log)
      case None => None
      case Some(c) => Accept(c, m)
    decreases |log|
  {
    if log != [] {
      assert (log + [m])[0] == log[0];
      assert (log + [m])[1..] == log[1..] + [m];
      match Accept(closed, log[0])
      case None =>
      case Some(c) => ReplaySnoc(c, log[1..], m);
    }
  }

  /**
   * In a consistent log the comm-open and comm-close messages balance: a
   * log that starts before the comm exists and ends with the comm open has
   * exactly one more comm-open than comm-close, one that ends closed has as
   * many of each.
   */
  lemma {:induction false} OpenCloseBalance(closed: bool, log: seq<CommMessage>, final: bool)
    requires Replay(closed, log) == Some(final)
    ensures Count(log, CommOpen) + (if closed then 0 else 1) ==
            Count(log, CommClose) + (if final then 0 else 1)
    decreases |log|
  {
    if log != [] {
      var c := Accept(closed, log[0]).value;
      OpenCloseBalance(c, log[1..], final);
    }
  }

  /** In a consistent log every Show and Update event is sent while the comm is open. */
  lemma {:induction false} EventsOnlyWhileOpen(closed: bool, log: seq<CommMessage>, i: nat)
    requires Replay(closed, log).Some?
    requires i < |log| && (log[i] == ShowEvent || log[i] == UpdateEvent)
    ensures Replay(closed, log[..i]) == Some(false)
    decreases i
  {
    var c := Accept(closed, log[0]).value;
    if i > 0 {
      EventsOnlyWhileOpen(c, log[1..], i - 1);
      assert log[..i][1..] == log[1..][..i - 1];
    }
  }

  /** The backend representation of a frontend plot and of its comm. */
  class Plot {
    /** `_closed`. */
    var closed: bool
    /** The messages the plot's comm has sent so far, oldest first. */
    var sent: seq<CommMessage>

    /** The messages sent so far replay, from before the comm existed, to the current state. */
    ghost predicate Valid()
      reads this
    {
      Replay(true, sent) == Some(closed)
    }

    /** A plot is created open; creating its comm sends the comm-open. */
    constructor ()
      ensures Valid()
      ensures !closed && sent == [CommOpen]
    {
      closed := false;
      sent := [CommOpen];
    }

    /** `_open`: re-opens a closed plot; does nothing on an open one. */
    method Open()
      requires Valid()
      modifies this
      ensures Valid()
      ensures !closed
      ensures sent == old(sent) + (if old(closed) then [CommOpen] else [])
    {
      if !closed {
        return;
      }
      ReplaySnoc(true, sent, CommOpen);
      sent := sent + [CommOpen];
      closed := false;
    }

    /** `close`: closes an open plot with one comm-close; does nothing on a closed one. */
    method Close()
      requires Valid()
      modifies this
      ensures Valid()
      ensures closed
      ensures sent == old(sent) + (if old(closed) then [] else [CommClose])
    {
      if closed {
        return;
      }
      ReplaySnoc(true, sent, CommClose);
      closed := true;
      sent := sent + [CommClose];
    }

    /** `show`: a Show event on an open plot; a closed plot is re-opened instead. */
    method Show()
      requires Valid()
      modifies this
      ensures Valid()
      ensures !closed
      ensures sent == old(sent) + [if old(closed) then CommOpen else ShowEvent]
    {
      if closed {
        Open();
      } else {
        ReplaySnoc(true, sent, ShowEvent);
        sent := sent + [ShowEvent];
      }
    }

    /** `update`: an Update event on an open plot; a closed plot is re-opened instead. */
    method Update()
      requires Valid()
      modifies this
      ensures Valid()
      ensures !closed
      ensures sent == old(sent) + [if old(closed) then CommOpen else UpdateEvent]
    {
      if closed {
        Open();
      } else {
        ReplaySnoc(true, sent, UpdateEvent);
        sent := sent + [UpdateEvent];
      }
    }

    /**
     * `_handle_render`: sends the rendered image with its MIME type. An
     * unknown format raises before anything is sent. `data` stands for the
     * base64 text of what the renderer returned.
     */
    method HandleRender(format: string, data: string) returns (ok: bool)
      requires Valid()
      modifies this
      ensures Valid()
      ensures closed == old(closed)
      ensures ok <==> MimeType(format).Some?
      ensures sent == old(sent) + (if ok then [RenderResult(data, MimeType(format).value)] else [])
    {
      var mime := MimeType(format);
      if mime.None? {
        return false;
      }
      ReplaySnoc(true, sent, RenderResult(data, mime.value));
      sent := sent + [RenderResult(data, mime.value)];
      return true;
    }

    /** `_handle_close`: a close requested by the frontend is an ordinary close. */
    method HandleClose()
      requires Valid()
      modifies this
      ensures Valid()
      ensures closed
      ensures sent == old(sent) + (if old(closed) then [] else [CommClose])
    {
      Close();
    }
  }

  /** The position of the first occurrence of `x` in `s`; |s| when there is none. */
  function FirstIndex(s: seq<Plot>, x: Plot): (k: nat)
    ensures k <= |s| && x !in s[..k]
    ensures k < |s| <==> x in s
    ensures k < |s| ==> s[k] == x
  {
    if s == [] then 0
    else if s[0] == x then 0
    else
      assert s[..1 + FirstIndex(s[1..], x)] == [s[0]] + s[1..][..FirstIndex(s[1..], x)];
      1 + FirstIndex(s[1..], x)
  }

  /** `list.remove(x)`: drops the first occurrence of `x`, if any. */
  function RemoveFirst(s: seq<Plot>, x: Plot): (r: seq<Plot>)
    ensures s != [] && s[0] == x ==> r == s[1..]
  {
    if s == [] then s
    else if s[0] == x then s[1..]
    else [s[0]] + RemoveFirst(s[1..], x)
  }

  /** `list.remove(x)` drops exactly the first occurrence of `x`, and leaves a list without `x` as it is. */
  lemma {:induction false} RemoveFirstDropsFirstOccurrence(s: seq<Plot>, x: Plot)
    ensures x in s ==> RemoveFirst(s, x) == s[..FirstIndex(s, x)] + s[FirstIndex(s, x) + 1..]
    ensures x !in s ==> RemoveFirst(s, x) == s
  {
    if s != [] && s[0] != x {
      RemoveFirstDropsFirstOccurrence(s[1..], x);
      if x in s {
        assert x in s[1..];
        var k := FirstIndex(s[1..], x);
        assert FirstIndex(s, x) == k + 1;
        SlicesPastHead(s, k);
      }
    } else if s != [] {
      assert s[..0] + s[1..] == s[1..];
    }
  }

  /** Slicing `s` around position `k + 1` is slicing its tail around `k`. */
  lemma SlicesPastHead(s: seq<Plot>, k: nat)
    requires k + 1 < |s|
    ensures s[..k + 1] + s[k + 2..] == [s[0]] + (s[1..][..k] + s[1..][k + 1..])
  {
    assert s[..k + 1] == [s[0]] + s[1..][..k];
    assert s[k + 2..] == s[1..][k + 1..];
  }

  /** The registry of the plots of a kernel. */
  class PlotsService {
    /** `_plots`, in creation order. */
    var plots: seq<Plot>

    ghost predicate Valid()
      reads this, plots
    {
      (forall i, j :: 0 <= i < j < |plots| ==> plots[i] != plots[j]) &&
      (forall i :: 0 <= i < |plots| ==> plots[i].Valid())
    }

    constructor ()
      ensures Valid() && plots == []
    {
      plots := [];
    }

    /**
     * `create_plot`: a new plot, open and with its comm-open sent, is
     * appended; the plots already registered are left as they were.
     */
    method CreatePlot() returns (plot: Plot)
      requires Valid()
      modifies this
      ensures Valid()
      ensures fresh(plot)
      ensures plots == old(plots) + [plot]
      ensures !plot.closed && plot.sent == [CommOpen]
      ensures forall i :: 0 <= i < |old(plots)| ==>
        plots[i].closed == old(plots[i].closed) && plots[i].sent == old(plots[i].sent)
    {
      plot := new Plot();
      plots := plots + [plot];
    }

    /**
     * `shutdown`: closes every registered plot (a comm-close for each one
     * still open) and empties the registry.
     */
    method Shutdown()
      requires Valid()
      modifies this, plots
      ensures Valid()
      ensures plots == []
      ensures forall i :: 0 <= i < |old(plots)| ==>
        old(plots)[i].closed && old(plots)[i].Valid() &&
        old(plots)[i].sent == old(plots[i].sent) + (if old(plots[i].closed) then [] else [CommClose])
    {
      var snapshot := plots;
      for i := 0 to |snapshot|
        invariant plots == snapshot[i..]
        invariant forall j :: 0 <= j < i ==>
          snapshot[j].closed && snapshot[j].Valid() &&
          snapshot[j].sent == old(snapshot[j].sent) + (if old(snapshot[j].closed) then [] else [CommClose])
        invariant forall j :: i <= j < |snapshot| ==>
          snapshot[j].Valid() &&
          snapshot[j].closed == old(snapshot[j].closed) && snapshot[j].sent == old(snapshot[j].sent)
      {
        Retire(snapshot[i]);
      }
    }

    /** One turn of `shutdown`: closes the first registered plot and removes it from the registry. */
    method Retire(plot: Plot)
      requires plots != [] && plots[0] == plot && plot.Valid()
      modifies this, plot
      ensures plots == old(plots)[1..]
      ensures plot.closed && plot.Valid()
      ensures plot.sent == old(plot.sent) + (if old(plot.closed) then [] else [CommClose])
    {
      plot.Close();
      plots := RemoveFirst(plots, plot);
    }
  }
}
