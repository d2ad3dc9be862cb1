/** The recent-prompts panel of src/components/RecentPrompts.jsx: the relative time
    shown beside each entry, the shortened problem and capitalised tone, and the
    two-click confirmation before the history is cleared. */
module RecentPrompts {
  import opened Text
  import opened History

  /** `Math.floor(a / b)` for a positive divisor: the largest `q` with `q * b <= a`.
      Dafny's division rounds the same way when `b` is positive. */
  function FloorDiv(a: int, b: int): (q: int)
    requires b > 0
    ensures q * b <= a < (q + 1) * b
  {
    a / b
  }

  /** `Math.floor((now - then) / 1000)` for two instants in milliseconds. */
  function ElapsedSeconds(nowMillis: int, thenMillis: int): (r: int)
    ensures r * 1000 <= nowMillis - thenMillis < (r + 1) * 1000
  {
    FloorDiv(nowMillis - thenMillis, 1000)
  }

  /** A length of time formatTimeAgo reports in, and its suffix. */
  datatype TimeUnit = TimeUnit(seconds: nat, suffix: string)

  /** The units formatTimeAgo tries, largest first: years of 365 days, months of 30
      days, days, hours and minutes. */
  const Units: seq<TimeUnit> := [
    TimeUnit(31536000, "y"), TimeUnit(2592000, "mo"), TimeUnit(86400, "d"),
    TimeUnit(3600, "h"), TimeUnit(60, "m")
  ]

  const JustNow: string := "Just now"

  /** `${interval}<suffix> ago` */
  function Ago(interval: nat, suffix: string): string
  {
    NatToString(interval) + suffix + " ago"
  }

  /** formatTimeAgo, given the elapsed whole seconds (negative for a timestamp in the
      future): the first unit, largest first, that fits at least once. */
  function FormatTimeAgo(seconds: int): (r: string)
    ensures seconds < 60 ==> r == JustNow
  {
    var years := FloorDiv(seconds, 31536000);
    if years >= 1 then Ago(years, "y")
    else
      var months := FloorDiv(seconds, 2592000);
      if months >= 1 then Ago(months, "mo")
      else
        var days := FloorDiv(seconds, 86400);
        if days >= 1 then Ago(days, "d")
        else
          var hours := FloorDiv(seconds, 3600);
          if hours >= 1 then Ago(hours, "h")
          else
            var minutes := FloorDiv(seconds, 60);
            if minutes >= 1 then Ago(minutes, "m")
            else JustNow
  }

  /** The position of the first unit of `units` that fits into `seconds` at least
      once, if any. */
  function FirstFit(seconds: int, units: seq<TimeUnit>): (r: Option<nat>)
    requires forall i :: 0 <= i < |units| ==> units[i].seconds > 0
    ensures r.Some? ==> r.value < |units| && FloorDiv(seconds, units[r.value].seconds) >= 1
    ensures r.Some? ==> forall j :: 0 <= j < r.value ==> FloorDiv(seconds, units[j].seconds) < 1
    ensures r.None? ==> forall j :: 0 <= j < |units| ==> FloorDiv(seconds, units[j].seconds) < 1
  {
    if units == [] then None
    else if FloorDiv(seconds, units[0].seconds) >= 1 then Some(0)
    else
      match FirstFit(seconds, units[1..])
      case None => None
      case Some(k) => Some(k + 1)
  }

  /** The text for the unit table read as data. */
  function TimeAgoByTable(seconds: int): string
  {
    match FirstFit(seconds, Units)
    case None => JustNow
    case Some(k) => Ago(FloorDiv(seconds, Units[k].seconds), Units[k].suffix)
  }

  /** The chain of early returns is the table lookup: the largest unit that fits
      at least once is chosen, and its whole count is printed. */
  lemma FormatTimeAgoFollowsTable(seconds: int)
    ensures FormatTimeAgo(seconds) == TimeAgoByTable(seconds)
  {
    var r := FirstFit(seconds, Units);
    if r.Some? {
      assert r.value < 5;
      if r.value >= 1 { assert FloorDiv(seconds, Units[0].seconds) < 1; }
      if r.value >= 2 { assert FloorDiv(seconds, Units[1].seconds) < 1; }
      if r.value >= 3 { assert FloorDiv(seconds, Units[2].seconds) < 1; }
      if r.value >= 4 { assert FloorDiv(seconds, Units[3].seconds) < 1; }
    } else {
      assert FloorDiv(seconds, Units[4].seconds) < 1;
    }
  }

  /** "Just now" exactly for less than a minute, future timestamps included. */
  lemma JustNowIffUnderAMinute(seconds: int)
    ensures FormatTimeAgo(seconds) == JustNow <==> seconds < 60
  {
    if seconds >= 60 {
      FormatTimeAgoFollowsTable(seconds);
      assert FloorDiv(seconds, Units[4].seconds) >= 1;
      var k := FirstFit(seconds, Units).value;
      var n := FloorDiv(seconds, Units[k].seconds);
      assert FormatTimeAgo(seconds)[0] == NatToString(n)[0];
      assert JustNow[0] == 'J';
    }
  }

  /** Measured from two instants in milliseconds, "Just now" is shown exactly when
      less than sixty thousand milliseconds separate them, so also for an instant
      in the future. */
  lemma JustNowIffUnderSixtyThousandMillis(nowMillis: int, thenMillis: int)
    ensures FormatTimeAgo(ElapsedSeconds(nowMillis, thenMillis)) == JustNow
            <==> nowMillis - thenMillis < 60000
  {
    JustNowIffUnderAMinute(ElapsedSeconds(nowMillis, thenMillis));
  }

  /** From a minute on, the count printed is at least one. */
  lemma CountAtLeastOne(seconds: int)
    requires seconds >= 60
    ensures exists k :: 0 <= k < |Units| && FloorDiv(seconds, Units[k].seconds) >= 1
                        && FormatTimeAgo(seconds) == Ago(FloorDiv(seconds, Units[k].seconds), Units[k].suffix)
  {
    FormatTimeAgoFollowsTable(seconds);
    assert FloorDiv(seconds, Units[4].seconds) >= 1;
    var k := FirstFit(seconds, Units).value;
    assert FormatTimeAgo(seconds) == Ago(FloorDiv(seconds, Units[k].seconds), Units[k].suffix);
  }

  const MaxShown: nat := 60

  /** The problem as the list shows it: at most sixty characters, then "...". */
  function Shortened(problem: string): (r: string)
    ensures |problem| <= MaxShown ==> r == problem
    ensures |problem| > MaxShown ==> |r| == MaxShown + 3 && r[..MaxShown] == problem[..MaxShown]
                                     && r[MaxShown..] == "..."
  {
    if |problem| > MaxShown then problem[..MaxShown] + "..." else problem
  }

  /** `tone.charAt(0).toUpperCase() + tone.slice(1)` */
  function Capitalized(tone: string): (r: string)
    ensures |r| == |tone|
    ensures tone != [] ==> r[0] == UpperChar(tone[0]) && r[1..] == tone[1..]
  {
    if tone == [] then [] else [UpperChar(tone[0])] + tone[1..]
  }

  /** The state of the RecentPrompts panel over the history slot it reads. */
  class RecentPromptsPanel {
    var prompts: seq<PromptRecord>
    var isOpen: bool
    var confirmingClear: bool
    const store: HistoryStore

    /** Mounting loads the stored list; the panel starts closed and unarmed. */
    constructor (store: HistoryStore)
      ensures this.store == store
      ensures prompts == store.History() && !isOpen && !confirmingClear
    {
      this.store := store;
      prompts := store.History();
      isOpen := false;
      confirmingClear := false;
    }

    /** The panel renders nothing while its list is empty. */
    predicate Renders()
      reads this
    {
      prompts != []
    }

    /** loadPrompts, also run on every storage event. */
    method LoadPrompts()
      modifies this
      ensures prompts == store.History()
      ensures isOpen == old(isOpen) && confirmingClear == old(confirmingClear)
    {
      prompts := store.GetHistory();
    }

    /** handleClearHistory: the first click only arms the confirmation; a click while
        armed clears the slot and the list and disarms. */
    method HandleClearHistory()
      modifies this, store
      ensures old(confirmingClear) ==> store.History() == [] && prompts == [] && !confirmingClear
      ensures !old(confirmingClear) ==> confirmingClear && prompts == old(prompts)
                                        && store.stored == old(store.stored)
      ensures isOpen == old(isOpen)
    {
      if confirmingClear {
        var _ := store.ClearHistory();
        prompts := [];
        confirmingClear := false;
      } else {
        confirmingClear := true;
      }
    }

    /** The timer three seconds after arming: the confirmation lapses. */
    method ConfirmTimeout()
      modifies this
      ensures !confirmingClear && prompts == old(prompts) && isOpen == old(isOpen)
    {
      confirmingClear := false;
    }

    /** The expand/collapse button. */
    method ToggleOpen()
      modifies this
      ensures isOpen == !old(isOpen)
      ensures prompts == old(prompts) && confirmingClear == old(confirmingClear)
    {
      isOpen := !isOpen;
    }
  }
}
