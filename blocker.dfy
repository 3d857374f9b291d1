// The app blocker page (Blocker): a focus session that counts down once a
// second and raises a completion notice when it runs out, a list of apps
// whose `blocked` switch can be flipped, and a list of extra websites with
// add and remove. The interval is one explicit step, `TickSession`; the
// completion toast is counted in `completions`.

module Blocker {
  import opened Wrappers
  import opened Strings
  import opened Seqs

  // ---------------------------------------------------------------------
  // The focus session

  datatype Session = Session(isBlocking: bool, timeRemaining: int, completions: nat)

  const InitialSession := Session(false, 0, 0)

  /** One firing of the interval: while blocking with time left, a value of
      at most one second ends the session (time 0, blocking off, one notice);
      a larger value goes down by one. Otherwise nothing happens. */
  function TickSession(s: Session): (t: Session)
    ensures s.isBlocking && 0 < s.timeRemaining <= 1 ==>
              t == Session(false, 0, s.completions + 1)
    ensures s.isBlocking && s.timeRemaining > 1 ==>
              t == s.(timeRemaining := s.timeRemaining - 1)
    ensures !s.isBlocking || s.timeRemaining <= 0 ==> t == s
  {
    if s.isBlocking && s.timeRemaining > 0 then
      if s.timeRemaining <= 1 then Session(false, 0, s.completions + 1)
      else s.(timeRemaining := s.timeRemaining - 1)
    else s
  }

  /** `startBlockingSession`: `sessionDuration` minutes, not validated (the
      5 to 180 bounds exist only on the input element). */
  function StartSession(s: Session, sessionDuration: int): (t: Session)
    ensures t.isBlocking && t.timeRemaining == sessionDuration * 60
    ensures t.completions == s.completions
  {
    s.(timeRemaining := sessionDuration * 60, isBlocking := true)
  }

  /** `stopBlockingSession`: ends the session without a notice. */
  function StopSession(s: Session): (t: Session)
    ensures !t.isBlocking && t.timeRemaining == 0 && t.completions == s.completions
  {
    s.(isBlocking := false, timeRemaining := 0)
  }

  function RunSession(s: Session, n: nat): Session
    decreases n
  {
    if n == 0 then s else RunSession(TickSession(s), n - 1)
  }

  lemma {:induction false} RunSessionAdd(s: Session, m: nat, n: nat)
    ensures RunSession(s, m + n) == RunSession(RunSession(s, m), n)
    decreases m
  {
    if m > 0 {
      RunSessionAdd(TickSession(s), m - 1, n);
    }
  }

  /** A state the interval leaves alone stays as it is forever. */
  lemma {:induction false} RunSessionIdle(s: Session, n: nat)
    requires !s.isBlocking || s.timeRemaining <= 0
    ensures RunSession(s, n) == s
    decreases n
  {
    if n > 0 {
      RunSessionIdle(TickSession(s), n - 1);
    }
  }

  /** Blocking with `r > 0` seconds left: for `k < r` steps the session is
      still on with `r - k` seconds and no notice; step `r` ends it with
      exactly one notice. */
  lemma {:induction false} CountDown(s: Session, k: nat)
    requires s.isBlocking && s.timeRemaining > 0 && k <= s.timeRemaining
    ensures k < s.timeRemaining ==>
              RunSession(s, k) == s.(timeRemaining := s.timeRemaining - k)
    ensures k == s.timeRemaining ==>
              RunSession(s, k) == Session(false, 0, s.completions + 1)
    decreases k
  {
    if k > 0 {
      if s.timeRemaining > 1 {
        CountDown(TickSession(s), k - 1);
      }
    }
  }

  /** A session of `d > 0` minutes blocks for `d * 60` ticks, then ends
      with one notice, and no later tick raises another. */
  lemma SessionCompletesOnce(s: Session, d: int, extra: nat)
    requires d > 0
    ensures RunSession(StartSession(s, d), d * 60 - 1).isBlocking
    ensures RunSession(StartSession(s, d), d * 60 + extra) == Session(false, 0, s.completions + 1)
  {
    var t := StartSession(s, d);
    CountDown(t, d * 60 - 1);
    CountDown(t, d * 60);
    RunSessionAdd(t, d * 60, extra);
    RunSessionIdle(Session(false, 0, s.completions + 1), extra);
  }

  /** Stopping never raises the notice and leaves nothing for later ticks. */
  lemma StopIsSilent(s: Session, n: nat)
    ensures RunSession(StopSession(s), n) == StopSession(s)
    ensures RunSession(StopSession(s), n).completions == s.completions
  {
    RunSessionIdle(StopSession(s), n);
  }

  /** As written, a duration of 0 minutes (what `Number("")` gives for an
      emptied input field) starts a session that shows as active and never
      ends or notifies, however long it runs. */
  lemma ZeroMinuteSessionNeverEnds(s: Session, n: nat)
    ensures StartSession(s, 0).isBlocking
    ensures RunSession(StartSession(s, 0), n) == StartSession(s, 0)
  {
    RunSessionIdle(StartSession(s, 0), n);
  }

  /** The start the input's bounds evidently intend: durations outside 5 to
      180 minutes are rejected and leave the session unchanged. */
  function StartSessionChecked(s: Session, sessionDuration: int): (r: Option<Session>)
    ensures r.Some? <==> 5 <= sessionDuration <= 180
    ensures r.Some? ==> r.value == StartSession(s, sessionDuration)
  {
    if 5 <= sessionDuration <= 180 then Some(StartSession(s, sessionDuration)) else None
  }

  /** Every session the checked start accepts ends with one notice after at
      most three hours of ticks. */
  lemma CheckedSessionCompletes(s: Session, d: int)
    requires StartSessionChecked(s, d).Some?
    ensures var t := StartSessionChecked(s, d).value;
            t.timeRemaining <= 10800 &&
            RunSession(t, t.timeRemaining) == Session(false, 0, s.completions + 1)
  {
    SessionCompletesOnce(s, d, 0);
  }

  // ---------------------------------------------------------------------
  // Apps

  datatype App = App(name: string, icon: string, blocked: bool, timeSpent: int)

  const InitialApps: seq<App> := [
    App("Instagram", "📷", true, 45),
    App("TikTok", "🎵", true, 38),
    App("Facebook", "👥", false, 22),
    App("YouTube", "▶️", false, 67),
    App("Twitter", "🐦", true, 31),
    App("WhatsApp", "💬", false, 89)
  ]

  /** `toggleAppBlock(appIndex)`: the app at that position has its switch
      flipped; an index outside the list changes nothing. */
  function ToggleApp(apps: seq<App>, appIndex: int): (r: seq<App>)
    ensures |r| == |apps|
    ensures forall k :: 0 <= k < |apps| && k != appIndex ==> r[k] == apps[k]
    ensures 0 <= appIndex < |apps| ==>
              r[appIndex] == apps[appIndex].(blocked := !apps[appIndex].blocked)
  {
    if 0 <= appIndex < |apps| then
      apps[appIndex := apps[appIndex].(blocked := !apps[appIndex].blocked)]
    else apps
  }

  /** Flipping the same switch twice changes nothing. */
  lemma ToggleTwice(apps: seq<App>, appIndex: int)
    ensures ToggleApp(ToggleApp(apps, appIndex), appIndex) == apps
  {
    var r := ToggleApp(ToggleApp(apps, appIndex), appIndex);
    assert forall k :: 0 <= k < |apps| ==> r[k] == apps[k];
  }

  /** `blockedApps.filter(app => app.blocked).length`. */
  function BlockedAppsCount(apps: seq<App>): (n: nat)
    ensures n <= |apps|
  {
    if apps == [] then 0
    else (if apps[0].blocked then 1 else 0) + BlockedAppsCount(apps[1..])
  }

  /** `blockedApps.reduce((total, app) => total + app.timeSpent, 0)`. */
  function TotalTimeSpent(apps: seq<App>): int
  {
    if apps == [] then 0
    else apps[0].timeSpent + TotalTimeSpent(apps[1..])
  }

  /** Replacing one app changes the count by the difference of the two
      `blocked` flags and the total by the difference of the two times. */
  lemma {:induction false} ReplaceApp(apps: seq<App>, i: nat, a: App)
    requires i < |apps|
    ensures BlockedAppsCount(apps[i := a]) ==
            BlockedAppsCount(apps) - (if apps[i].blocked then 1 else 0) + (if a.blocked then 1 else 0)
    ensures TotalTimeSpent(apps[i := a]) == TotalTimeSpent(apps) - apps[i].timeSpent + a.timeSpent
    decreases |apps|
  {
    var u := apps[i := a];
    if i > 0 {
      assert u[1..] == apps[1..][i - 1 := a];
      ReplaceApp(apps[1..], i - 1, a);
    } else {
      assert u[1..] == apps[1..];
    }
  }

  /** A toggle moves the blocked count by exactly one, up or down, and never
      changes the total time. */
  lemma ToggleStats(apps: seq<App>, appIndex: int)
    requires 0 <= appIndex < |apps|
    ensures BlockedAppsCount(ToggleApp(apps, appIndex)) ==
            if apps[appIndex].blocked then BlockedAppsCount(apps) - 1 else BlockedAppsCount(apps) + 1
    ensures TotalTimeSpent(ToggleApp(apps, appIndex)) == TotalTimeSpent(apps)
  {
    ReplaceApp(apps, appIndex, apps[appIndex].(blocked := !apps[appIndex].blocked));
  }

  /** On the initial list three apps are blocked for 292 minutes of use. */
  lemma InitialStats()
    ensures BlockedAppsCount(InitialApps) == 3
    ensures TotalTimeSpent(InitialApps) == 292
  {
  }

  // ---------------------------------------------------------------------
  // Websites

  const InitialWebsites: seq<string> := ["reddit.com", "netflix.com", "twitch.tv"]

  /** The site list and the text in the input box after an add. */
  datatype AddResult = AddResult(sites: seq<string>, input: string)

  /** `addCustomWebsite`: the trimmed input is appended and the box cleared
      when it is non-blank and not yet listed; otherwise nothing changes. */
  function AddWebsite(sites: seq<string>, input: string): (r: AddResult)
    ensures var t := Trim(input);
            if t != [] && t !in sites then r == AddResult(sites + [t], [])
            else r == AddResult(sites, input)
    ensures NoDuplicates(sites) ==> NoDuplicates(r.sites)
    ensures AllWhitespace(input) ==> r == AddResult(sites, input)
  {
    var t := Trim(input);
    if t != [] && t !in sites then AddResult(sites + [t], []) else AddResult(sites, input)
  }

    /** Removing a site just added gives back the list it was added to. */
  lemma RemoveAfterAdd(sites: seq<string>, input: string)
    requires Trim(input) != [] && Trim(input) !in sites
    ensures Without(AddWebsite(sites, input).sites, Trim(input)) == sites
  {
    WithoutAppended(sites, Trim(input));
  }

  // ---------------------------------------------------------------------
  // Display

  /** JavaScript's `seconds % 60`: it truncates, so the remainder takes the
      sign of `seconds`, and `seconds` minus it is a whole number of minutes. */
  function Rem60(seconds: int): (r: int)
    ensures -60 < r < 60 && (seconds - r) % 60 == 0
    ensures seconds >= 0 ==> r >= 0
    ensures seconds < 0 ==> r <= 0
  {
    if seconds >= 0 then seconds % 60 else -((-seconds) % 60)
  }

  /** `formatTime(seconds)`: `Math.floor(seconds / 60)` (Dafny's `/` by a
      positive number also rounds down) and `seconds % 60` (truncating),
      each padded to at least two characters. The session time can be
      negative, since the start does not check the duration. */
  function FormatTime(seconds: int): string
  {
    PadStart(IntToString(seconds / 60), 2, '0') + ":" + PadStart(IntToString(Rem60(seconds)), 2, '0')
  }

  function ClockText(mins: nat, secs: nat): string
  {
    PadStart(NatToString(mins), 2, '0') + ":" + PadStart(NatToString(secs), 2, '0')
  }

  /** A time that is not negative shows as its whole minutes and remaining
      seconds. */
  lemma FormatTimeNatural(seconds: nat)
    ensures FormatTime(seconds) == ClockText(SplitSixty(seconds).0, SplitSixty(seconds).1)
  {
    assert Rem60(seconds) == seconds % 60;
  }

  /** A negative time shows with a leading minus sign, and the text is not
      a clock reading at all. */
  lemma NegativeTimeShown(seconds: int)
    requires seconds < 0
    ensures FormatTime(seconds)[0] == '-'
    ensures ParseClock(FormatTime(seconds)) == None
  {
    var m := IntToString(seconds / 60);
    assert |m| >= 2 by {
      assert m[1..] == NatToString(-(seconds / 60));
    }
    var p := PadStart(m, 2, '0');
    assert p == m;
    var t := FormatTime(seconds);
    assert t == p + ":" + PadStart(IntToString(Rem60(seconds)), 2, '0');
    assert t[0] == '-';
    match IndexOf(t, ':')
    case None =>
    case Some(k) =>
      if k > 0 {
        assert t[..k][0] == '-' && !IsDigit('-');
      }
  }

  /** What the session shows after starting with -1 minute: "-1:00" for
      -60 seconds, and "-2:-1" one tick of a second less. */
  lemma NegativeExamples()
    ensures FormatTime(-60) == "-1:00"
    ensures FormatTime(-61) == "-2:-1"
  {
    assert Rem60(-60) == 0 && Rem60(-61) == -1;
    assert -60 / 60 == -1 && -61 / 60 == -2;
    assert NatToString(1) == "1" && NatToString(2) == "2" && NatToString(0) == "0";
  }

  /** The display reads back as the number of seconds it shows, and both
      fields are at least two characters wide. */
  lemma FormatTimeRoundTrip(seconds: nat)
    ensures ParseClock(FormatTime(seconds)) == Some(seconds)
    ensures |FormatTime(seconds)| >= 5
  {
    FormatTimeNatural(seconds);
    SplitClockRoundTrip(seconds);
  }

  lemma SplitClockRoundTrip(seconds: nat)
    ensures ParseClock(ClockText(SplitSixty(seconds).0, SplitSixty(seconds).1)) == Some(seconds)
    ensures |ClockText(SplitSixty(seconds).0, SplitSixty(seconds).1)| >= 5
  {
    var split := SplitSixty(seconds);
    ClockTextRoundTrip(split.0, split.1);
  }

  lemma ClockTextRoundTrip(mins: nat, secs: nat)
    requires secs < 60
    ensures ParseClock(ClockText(mins, secs)) == Some(mins * 60 + secs)
    ensures |ClockText(mins, secs)| >= 5
  {
    var m := PadStart(NatToString(mins), 2, '0');
    PadStartDigits(NatToString(mins), 2);
    assert m != [] && DecimalValue(m) == mins;
    TwoDigitClock(m, secs);
    assert ClockText(mins, secs) == m + ":" + PadStart(NatToString(secs), 2, '0');
  }

  // ---------------------------------------------------------------------
  // The page

  class BlockerPage {
    var isBlocking: bool
    var timeRemaining: int
    var completions: nat
    var sessionDuration: int
    var blockedApps: seq<App>
    var customWebsites: seq<string>
    var newWebsite: string

    function SessionState(): Session
      reads this
    {
      Session(isBlocking, timeRemaining, completions)
    }

    /** The site list never holds the same entry twice. */
    predicate Valid()
      reads this
    {
      NoDuplicates(customWebsites)
    }

    constructor ()
      ensures Valid() && SessionState() == InitialSession
      ensures sessionDuration == 25 && blockedApps == InitialApps
      ensures customWebsites == InitialWebsites && newWebsite == ""
    {
      isBlocking, timeRemaining, completions := false, 0, 0;
      sessionDuration := 25;
      blockedApps := InitialApps;
      customWebsites := InitialWebsites;
      newWebsite := "";
    }

    /** One firing of the interval. */
    method Tick()
      modifies this
      ensures SessionState() == TickSession(old(SessionState()))
      ensures unchanged(this`sessionDuration, this`blockedApps, this`customWebsites, this`newWebsite)
    {
      if isBlocking && timeRemaining > 0 {
        if timeRemaining <= 1 {
          isBlocking := false;
          completions := completions + 1;
          timeRemaining := 0;
        } else {
          timeRemaining := timeRemaining - 1;
        }
      }
    }

    /** The duration box's `onChange`. */
    method SetSessionDuration(minutes: int)
      modifies this`sessionDuration
      ensures sessionDuration == minutes
    {
      sessionDuration := minutes;
    }

    method StartBlockingSession()
      modifies this`isBlocking, this`timeRemaining
      ensures SessionState() == StartSession(old(SessionState()), sessionDuration)
    {
      timeRemaining := sessionDuration * 60;
      isBlocking := true;
    }

    method StopBlockingSession()
      modifies this`isBlocking, this`timeRemaining
      ensures SessionState() == StopSession(old(SessionState()))
    {
      isBlocking := false;
      timeRemaining := 0;
    }

    method ToggleAppBlock(appIndex: int)
      modifies this`blockedApps
      ensures blockedApps == ToggleApp(old(blockedApps), appIndex)
    {
      blockedApps := ToggleApp(blockedApps, appIndex);
    }

    /** The site box's `onChange`. */
    method SetNewWebsite(text: string)
      modifies this`newWebsite
      ensures newWebsite == text
    {
      newWebsite := text;
    }

    method AddCustomWebsite()
      requires Valid()
      modifies this`customWebsites, this`newWebsite
      ensures Valid()
      ensures AddResult(customWebsites, newWebsite)
              == AddWebsite(old(customWebsites), old(newWebsite))
    {
      var r := AddWebsite(customWebsites, newWebsite);
      customWebsites, newWebsite := r.sites, r.input;
    }

    method RemoveWebsite(website: string)
      requires Valid()
      modifies this`customWebsites
      ensures Valid()
      ensures customWebsites == Without(old(customWebsites), website)
    {
      WithoutDistinct(customWebsites, website);
      customWebsites := Without(customWebsites, website);
    }
  }
}
