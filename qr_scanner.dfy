/**
 * The scanner's result panel and its auto-redirect (components/QRScanner.tsx).
 *
 * Its state is four React cells and one timer: the decoded text `scanResult`, the
 * `autoRedirect` switch, the `countdown`, the camera scanner's paused flag, and at most
 * one pending redirect timer (`pending`, holding the address it will open). After
 * every handler, React re-runs the redirect effect if `scanResult` or `autoRedirect`
 * changed: the effect first clears the timer it set last time, then, if the result is
 * a non-empty http(s) address and auto-redirect is on, sets the countdown to 3 and
 * starts a new timer for that address.
 *
 * `Step` is the state machine as a function; the class `Scanner` holds the cells and
 * its methods, one per handler, are proved to follow `Step`.
 */
module QRScanner {
  import opened Wrappers

  /**
   * What the browser's URL parser makes of a text: a parse error (the constructor
   * throws), or an address with its protocol (scheme and colon, e.g. "https:").
   */
  datatype UrlParse = ParseError | Parsed(protocol: string)

  /** `isUrl`: the text parses and its protocol is `http:` or `https:`. */
  predicate IsUrl(p: UrlParse)
    ensures p.ParseError? ==> !IsUrl(p)
  {
    p.Parsed? && (p.protocol == "http:" || p.protocol == "https:")
  }

  /** JavaScript truthiness of a `string | null`: null and the empty string are false. */
  predicate Truthy(s: Option<string>) {
    s.Some? && s.value != ""
  }

  datatype ScanState = ScanState(
    scanResult: Option<string>,
    autoRedirect: bool,
    countdown: Option<int>,
    paused: bool,
    pending: Option<string>)

  /** On mount: nothing scanned, auto-redirect on, no countdown, scanning, no timer. */
  const Initial := ScanState(None, true, None, false, None)

  datatype Event =
    | Decoded(text: string)   // the camera scanner reports a decoded text
    | Reset                   // the "scan again" button
    | ToggleAutoRedirect      // the auto-redirect switch
    | TimerFired              // the pending redirect timer runs out

  /** The condition under which the effect schedules a redirect. */
  predicate ShouldRedirect(s: ScanState, parse: string -> UrlParse)
    ensures s.scanResult == None || s.scanResult == Some("") || !s.autoRedirect ==> !ShouldRedirect(s, parse)
    ensures ShouldRedirect(s, parse) ==> s.scanResult.Some? && IsUrl(parse(s.scanResult.value))
  {
    Truthy(s.scanResult) && s.autoRedirect && IsUrl(parse(s.scanResult.value))
  }

  /**
   * One run of the redirect effect: its cleanup clears the previous timer, then a new
   * timer to the current result is started, and the countdown set to 3, exactly when
   * the result is a non-empty http(s) address and auto-redirect is on.
   */
  function RedirectEffect(s: ScanState, parse: string -> UrlParse): (t: ScanState)
    ensures t.pending.Some? <==> ShouldRedirect(s, parse)
    ensures t.pending.Some? ==> t.pending == s.scanResult && t.countdown == Some(3)
    ensures t.pending.None? ==> t.countdown == s.countdown
    ensures t.scanResult == s.scanResult && t.autoRedirect == s.autoRedirect && t.paused == s.paused
  {
    if ShouldRedirect(s, parse) then s.(countdown := Some(3), pending := s.scanResult)
    else s.(pending := None)
  }

  /** React re-runs the effect after a handler only when one of its dependencies changed. */
  function Rerender(before: ScanState, after: ScanState, parse: string -> UrlParse): (t: ScanState)
    ensures after.scanResult == before.scanResult && after.autoRedirect == before.autoRedirect ==> t == after
    ensures after.scanResult != before.scanResult || after.autoRedirect != before.autoRedirect ==>
              (t.pending.Some? <==> ShouldRedirect(after, parse)) && (t.pending.Some? ==> t.pending == after.scanResult)
    ensures t.scanResult == after.scanResult && t.autoRedirect == after.autoRedirect && t.paused == after.paused
  {
    if after.scanResult != before.scanResult || after.autoRedirect != before.autoRedirect
    then RedirectEffect(after, parse)
    else after
  }

  /** The state after one event, the effect included. */
  function Step(s: ScanState, e: Event, parse: string -> UrlParse): (t: ScanState)
    ensures e.Decoded? ==> t.scanResult == Some(e.text) && t.paused && t.autoRedirect == s.autoRedirect
    ensures e.Reset? ==> t.scanResult == None && t.countdown == None && !t.paused && t.autoRedirect == s.autoRedirect
    ensures e.ToggleAutoRedirect? ==>
              && t.autoRedirect == !s.autoRedirect
              && t.scanResult == s.scanResult && t.paused == s.paused
              && (t.pending.Some? <==> ShouldRedirect(t, parse))
    ensures e.TimerFired? ==> t == s.(pending := None)
    ensures t.scanResult != s.scanResult ==> (t.pending.Some? <==> ShouldRedirect(t, parse))
  {
    match e
    case Decoded(text) => Rerender(s, s.(scanResult := Some(text), paused := true), parse)
    case Reset => Rerender(s, s.(scanResult := None, countdown := None, paused := false), parse)
    case ToggleAutoRedirect => Rerender(s, s.(autoRedirect := !s.autoRedirect), parse)
    case TimerFired => s.(pending := None)
  }

  /** The state after a sequence of events, in order. */
  function Run(s: ScanState, events: seq<Event>, parse: string -> UrlParse): ScanState
    decreases |events|
  {
    if events == [] then s else Run(Step(s, events[0], parse), events[1..], parse)
  }

  /**
   * What every reachable state satisfies: a pending timer targets exactly the current
   * result, which is a non-empty http(s) address, with auto-redirect on and the
   * countdown at 3; the scanner is paused exactly while a result is held; the countdown
   * is null or 3.
   */
  predicate Valid(s: ScanState, parse: string -> UrlParse) {
    && (s.pending.Some? ==> s.pending == s.scanResult && ShouldRedirect(s, parse) && s.countdown == Some(3))
    && (s.paused <==> s.scanResult.Some?)
    && (s.countdown == None || s.countdown == Some(3))
  }

  lemma InitialValid(parse: string -> UrlParse)
    ensures Valid(Initial, parse)
  {
  }

  lemma StepValid(s: ScanState, e: Event, parse: string -> UrlParse)
    requires Valid(s, parse)
    ensures Valid(Step(s, e, parse), parse)
  {
  }

  /** Every state reached from a valid one, by any events, is valid. */
  lemma {:induction false} RunValid(s: ScanState, events: seq<Event>, parse: string -> UrlParse)
    requires Valid(s, parse)
    ensures Valid(Run(s, events, parse), parse)
    decreases |events|
  {
    if events != [] {
      StepValid(s, events[0], parse);
      RunValid(Step(s, events[0], parse), events[1..], parse);
    }
  }

  /**
   * No stale redirect: whatever events came before, a timer that fires opens the
   * current result, which is an http(s) address, and only while auto-redirect is on.
   */
  lemma RedirectIsCurrent(events: seq<Event>, parse: string -> UrlParse)
    ensures var s := Run(Initial, events, parse);
            s.pending.Some? ==>
              && s.pending == s.scanResult
              && IsUrl(parse(s.pending.value))
              && s.autoRedirect
  {
    RunValid(Initial, events, parse);
  }

  /** After a reset no redirect is pending, so none can fire until a new result arrives. */
  lemma ResetCancelsRedirect(s: ScanState, parse: string -> UrlParse)
    requires Valid(s, parse)
    ensures Step(s, Reset, parse).pending == None
    ensures Step(Step(s, Reset, parse), TimerFired, parse).pending == None
  {
  }

  /** Turning auto-redirect off cancels a pending redirect. */
  lemma ToggleOffCancelsRedirect(s: ScanState, parse: string -> UrlParse)
    requires s.autoRedirect
    ensures Step(s, ToggleAutoRedirect, parse).pending == None
  {
  }

  /**
   * The camera scanner and the result panel. `parse` stands for the browser's URL
   * parser, which the model does not open up.
   */
  class Scanner {
    const parse: string -> UrlParse
    var scanResult: Option<string>
    var autoRedirect: bool
    var countdown: Option<int>
    var paused: bool
    var pending: Option<string>

    function State(): ScanState
      reads this
    {
      ScanState(scanResult, autoRedirect, countdown, paused, pending)
    }

    ghost predicate Inv()
      reads this
    {
      Valid(State(), parse)
    }

    constructor (parse: string -> UrlParse)
      ensures this.parse == parse
      ensures State() == Initial && Inv()
    {
      this.parse := parse;
      scanResult, autoRedirect, countdown, paused, pending := None, true, None, false, None;
    }

    /** The effect on `[scanResult, autoRedirect]`, run after a render with the previous values. */
    method AfterRender(prevResult: Option<string>, prevAutoRedirect: bool)
      modifies this
      ensures State() == Rerender(old(State()).(scanResult := prevResult, autoRedirect := prevAutoRedirect),
                                  old(State()), parse)
    {
      if scanResult != prevResult || autoRedirect != prevAutoRedirect {
        pending := None;  // clearTimeout(timer) in the cleanup of the last run
        if Truthy(scanResult) && autoRedirect && IsUrl(parse(scanResult.value)) {
          countdown := Some(3);
          pending := scanResult;  // setTimeout(() => location.href = scanResult, 1000)
        }
      }
    }

    /** The scanner's success callback: keep the text and pause the camera scanner. */
    method OnDecoded(text: string)
      requires Inv()
      modifies this
      ensures State() == Step(old(State()), Decoded(text), parse) && Inv()
    {
      var prevResult, prevAutoRedirect := scanResult, autoRedirect;
      scanResult := Some(text);
      paused := true;
      AfterRender(prevResult, prevAutoRedirect);
      StepValid(old(State()), Decoded(text), parse);
    }

    /** `handleReset`: clear the result and the countdown, resume scanning. */
    method Reset()
      requires Inv()
      modifies this
      ensures State() == Step(old(State()), Event.Reset, parse) && Inv()
    {
      var prevResult, prevAutoRedirect := scanResult, autoRedirect;
      scanResult := None;
      countdown := None;
      paused := false;
      AfterRender(prevResult, prevAutoRedirect);
      StepValid(old(State()), Event.Reset, parse);
    }

    /** The auto-redirect switch. */
    method ToggleAutoRedirect()
      requires Inv()
      modifies this
      ensures State() == Step(old(State()), Event.ToggleAutoRedirect, parse) && Inv()
    {
      var prevResult, prevAutoRedirect := scanResult, autoRedirect;
      autoRedirect := !autoRedirect;
      AfterRender(prevResult, prevAutoRedirect);
      StepValid(old(State()), Event.ToggleAutoRedirect, parse);
    }

    /**
     * The pending timer runs out: the page navigates to the address the timer was
     * started with, which is the current result.
     */
    method FireTimer() returns (target: Option<string>)
      requires Inv()
      modifies this
      ensures target == old(pending)
      ensures target.Some? ==> target == scanResult && IsUrl(parse(target.value)) && autoRedirect
      ensures State() == Step(old(State()), TimerFired, parse) && Inv()
    {
      target := pending;
      pending := None;
    }

    /** `copyToClipboard`: the text copied, or nothing when no (non-empty) result is held. */
    method CopyToClipboard() returns (copied: Option<string>)
      ensures copied.Some? <==> Truthy(scanResult)
      ensures copied.Some? ==> copied == scanResult
    {
      if Truthy(scanResult) {
        copied := scanResult;
      } else {
        copied := None;
      }
    }
  }
}
