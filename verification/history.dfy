/** The prompt history of src/utils/generatePrompt.js: the five most recent
    generations, newest first, kept under the storage key 'promptHistory', and the
    plain-text export of that list. */
module History {
  import opened Text

  /** What a caller hands to saveToHistory. `kind` is the `type` label, which may be
      missing or empty in stored data. */
  datatype PromptData = PromptData(problem: string, kind: Option<string>, tone: string,
                                   system: string, prompt: string)

  /** One stored entry: the caller's data between a time-based id and a timestamp. */
  datatype PromptRecord = PromptRecord(id: int, data: PromptData, timestamp: string)

  const MaxHistory: nat := 5

  /** `[newPrompt, ...history].slice(0, 5)` */
  function Prepend(history: seq<PromptRecord>, entry: PromptRecord): (r: seq<PromptRecord>)
    ensures |r| == if |history| < MaxHistory then |history| + 1 else MaxHistory
    ensures r[0] == entry
    ensures forall i :: 1 <= i < |r| ==> r[i] == history[i - 1]
  {
    ([entry] + history)[..if |history| < MaxHistory then |history| + 1 else MaxHistory]
  }

  /** The list after saving `entries` one after the other, first to last. */
  function SaveAll(history: seq<PromptRecord>, entries: seq<PromptRecord>): seq<PromptRecord>
    decreases entries
  {
    if entries == [] then history else SaveAll(Prepend(history, entries[0]), entries[1..])
  }

  function Reverse<T>(s: seq<T>): (r: seq<T>)
    ensures |r| == |s|
    ensures forall i :: 0 <= i < |s| ==> r[i] == s[|s| - 1 - i]
  {
    if s == [] then [] else Reverse(s[1..]) + [s[0]]
  }

  function Min(a: int, b: int): int
  {
    if a < b then a else b
  }

  /** Truncating the tail first does not change a prefix that is short enough. */
  lemma TakeOfAppendTake<T>(a: seq<T>, b: seq<T>, m: nat, k: nat)
    requires m <= |b| && k <= |a| + m
    ensures (a + b[..m])[..k] == (a + b)[..k]
  {
    assert forall i :: 0 <= i < k ==> (a + b[..m])[i] == (a + b)[i];
  }

  /** Successive saves keep the most recent entries, newest first, followed by the
      older list, at most five in all. */
  lemma {:induction false} SaveAllKeepsNewest(history: seq<PromptRecord>, entries: seq<PromptRecord>)
    requires |history| <= MaxHistory
    ensures SaveAll(history, entries)
            == (Reverse(entries) + history)[..Min(MaxHistory, |entries| + |history|)]
    decreases entries
  {
    if entries == [] {
      assert (Reverse(entries) + history)[..Min(MaxHistory, |history|)] == history;
    } else {
      var rest := entries[1..];
      var next := Prepend(history, entries[0]);
      SaveAllKeepsNewest(next, rest);
      var m := if |history| < MaxHistory then |history| + 1 else MaxHistory;
      assert next == ([entries[0]] + history)[..m];
      TakeOfAppendTake(Reverse(rest), [entries[0]] + history, m, Min(MaxHistory, |rest| + m));
      assert Reverse(entries) == Reverse(rest) + [entries[0]];
      assert Reverse(rest) + ([entries[0]] + history) == Reverse(entries) + history;
    }
  }

  /** After five or more saves the list holds exactly the last five saved, newest
      first, whatever it held before. */
  lemma LastFiveSaves(history: seq<PromptRecord>, entries: seq<PromptRecord>)
    requires |entries| >= MaxHistory
    ensures SaveAll(history, entries) == Reverse(entries)[..MaxHistory]
  {
    var rest := entries[1..];
    var next := Prepend(history, entries[0]);
    SaveAllKeepsNewest(next, rest);
    assert Reverse(entries) == Reverse(rest) + [entries[0]];
    assert forall i :: 0 <= i < MaxHistory ==> (Reverse(rest) + next)[i] == Reverse(entries)[i];
  }

  const EmptyExport: string := "No prompts to export."

  /** `'='.repeat(50)` and `'-'.repeat(50)` */
  const EqualsRule: string := Repeat('=', 50)
  const DashRule: string := Repeat('-', 50)

  /** The report header: the title line, the '=' rule and a blank line. */
  const ExportHeader: string := "PromptCraft - Exported Prompts\n" + EqualsRule + "\n\n"

  /** `entry.type || 'General Help'`: a missing or empty label reads "General Help". */
  function KindLabel(kind: Option<string>): (r: string)
    ensures r != []
    ensures kind.Some? && kind.value != [] ==> r == kind.value
    ensures kind.None? || kind.value == [] ==> r == "General Help"
  {
    match kind
    case Some(name) => if name != [] then name else "General Help"
    case None => "General Help"
  }

  const ProblemTag: string := "Problem: "
  const ToneTag: string := "Tone: "
  const GeneratedTag: string := "Generated: "
  const SystemTag: string := "\nSystem Prompt:\n"
  const UserTag: string := "\nUser Prompt:\n"

  /** The block the export writes for one entry, one template line after the other;
      `number` counts from one and `localeTime` stands for
      `new Date(timestamp).toLocaleString()`. */
  function EntryBlock(entry: PromptRecord, number: nat, localeTime: string -> string): string
  {
    (NatToString(number) + ". " + KindLabel(entry.data.kind) + "\n")
    + (ProblemTag + entry.data.problem + "\n")
    + (ToneTag + entry.data.tone + "\n")
    + (GeneratedTag + localeTime(entry.timestamp) + "\n")
    + (SystemTag + entry.data.system + "\n")
    + (UserTag + entry.data.prompt + "\n")
    + (DashRule + "\n\n")
  }

  /** An entry's block opens with its number and type label, holds the problem,
      the system prompt and the user prompt each on lines of their own, and ends
      with the dash rule and a blank line. */
  lemma EntryBlockLayout(entry: PromptRecord, number: nat, localeTime: string -> string)
    ensures var r := EntryBlock(entry, number, localeTime);
            var head := NatToString(number) + ". " + KindLabel(entry.data.kind) + "\n";
            && |head| <= |r| && r[..|head|] == head
            && Occurs(r, ProblemTag + entry.data.problem + "\n")
            && Occurs(r, SystemTag + entry.data.system + "\n")
            && Occurs(r, UserTag + entry.data.prompt + "\n")
            && |DashRule + "\n\n"| <= |r| && r[|r| - |DashRule + "\n\n"|..] == DashRule + "\n\n"
  {
    BlockLayout(NatToString(number) + ". " + KindLabel(entry.data.kind) + "\n",
                ProblemTag + entry.data.problem + "\n",
                ToneTag + entry.data.tone + "\n",
                GeneratedTag + localeTime(entry.timestamp) + "\n",
                SystemTag + entry.data.system + "\n",
                UserTag + entry.data.prompt + "\n",
                DashRule + "\n\n");
  }

  /** Seven lines one after the other: the text starts with the first, ends with
      the last and holds the second, fifth and sixth. */
  lemma BlockLayout(a: string, b: string, c: string, d: string, e: string, f: string, g: string)
    ensures var s := a + b + c + d + e + f + g;
            && |a| <= |s| && s[..|a|] == a
            && Occurs(s, b) && Occurs(s, e) && Occurs(s, f)
            && |g| <= |s| && s[|s| - |g|..] == g
  {
    var s := a + b + c + d + e + f + g;
    assert s == a + b + (c + d + e + f + g);
    OccursIn(a, b, c + d + e + f + g);
    assert s == (a + b + c + d) + e + (f + g);
    OccursIn(a + b + c + d, e, f + g);
    OccursIn(a + b + c + d + e, f, g);
  }

  lemma AppendThree(text: string, a: string, b: string)
    ensures text + a + b == text + (a + b)
  {
  }

  /** Appending seven pieces one by one appends their concatenation. */
  lemma AppendSeven(text: string, a: string, b: string, c: string, d: string, e: string,
                    f: string, g: string)
    ensures text + a + b + c + d + e + f + g == text + (a + b + c + d + e + f + g)
  {
  }

  /** The blocks of `entries`, numbered from `first` on, in list order. */
  function EntryBlocks(entries: seq<PromptRecord>, first: nat, localeTime: string -> string): (r: seq<string>)
    ensures |r| == |entries|
    ensures forall i :: 0 <= i < |entries| ==> r[i] == EntryBlock(entries[i], first + i, localeTime)
    decreases entries
  {
    if entries == [] then []
    else [EntryBlock(entries[0], first, localeTime)] + EntryBlocks(entries[1..], first + 1, localeTime)
  }

  /** The parts written one after the other. */
  function Join(parts: seq<string>): string
  {
    if parts == [] then "" else parts[0] + Join(parts[1..])
  }

  lemma {:induction false} JoinAppend(a: seq<string>, b: seq<string>)
    ensures Join(a + b) == Join(a) + Join(b)
  {
    if a == [] {
      assert a + b == b;
    } else {
      assert (a + b)[0] == a[0];
      assert (a + b)[1..] == a[1..] + b;
      JoinAppend(a[1..], b);
    }
  }

  /** The report exportPromptsAsText produces for a history. */
  function ExportText(history: seq<PromptRecord>, localeTime: string -> string): (r: string)
    ensures history == [] ==> r == EmptyExport
    ensures history != [] ==> |r| >= |ExportHeader| && r[..|ExportHeader|] == ExportHeader
  {
    if history == [] then EmptyExport else ExportHeader + Join(EntryBlocks(history, 1, localeTime))
  }

  lemma JoinOne(part: string)
    ensures Join([part]) == part
  {
    assert [part][1..] == [];
  }

  /** The joined parts are the parts before `i`, part `i`, and the parts after it. */
  lemma JoinSplitAt(parts: seq<string>, i: nat)
    requires i < |parts|
    ensures Join(parts) == Join(parts[..i]) + parts[i] + Join(parts[i + 1..])
  {
    var front, part, back := parts[..i], parts[i], parts[i + 1..];
    SplitAround(parts, i);
    JoinAppend(front + [part], back);
    JoinAppend(front, [part]);
    JoinOne(part);
  }

  lemma SplitAround<T>(s: seq<T>, i: nat)
    requires i < |s|
    ensures s == s[..i] + [s[i]] + s[i + 1..]
  {
  }

  /** Joining one more part of a list appends that part. */
  lemma JoinPrefixStep(parts: seq<string>, k: nat)
    requires k < |parts|
    ensures Join(parts[..k + 1]) == Join(parts[..k]) + parts[k]
  {
    assert parts[..k + 1] == parts[..k] + [parts[k]];
    JoinAppend(parts[..k], [parts[k]]);
    JoinOne(parts[k]);
  }

  /** Each part occurs in the joined text, whatever comes before it. */
  lemma JoinHasPart(prefix: string, parts: seq<string>, i: nat)
    requires i < |parts|
    ensures Occurs(prefix + Join(parts), parts[i])
  {
    JoinSplitAt(parts, i);
    OccursAfter(prefix, Join(parts[..i]), parts[i], Join(parts[i + 1..]));
  }

  /** Every entry of a history appears in the export as its own block, under its
      position in the list counted from one. */
  lemma ExportListsEveryEntry(history: seq<PromptRecord>, i: nat, localeTime: string -> string)
    requires i < |history|
    ensures Occurs(ExportText(history, localeTime), EntryBlock(history[i], i + 1, localeTime))
  {
    JoinHasPart(ExportHeader, EntryBlocks(history, 1, localeTime), i);
  }

  /** The browser storage slot 'promptHistory', held in memory. */
  class HistoryStore {
    /** The list stored under the key; None while the key is absent. */
    var stored: Option<seq<PromptRecord>>

    constructor ()
      ensures stored == None
    {
      stored := None;
    }

    /** getHistory: the stored list, or the empty list when nothing is stored. */
    function History(): seq<PromptRecord>
      reads this
    {
      match stored
      case None => []
      case Some(history) => history
    }

    method GetHistory() returns (history: seq<PromptRecord>)
      ensures history == History()
    {
      match stored {
        case None => history := [];
        case Some(h) => history := h;
      }
    }

    /** saveToHistory: `now` stands for Date.now() and `isoTime` for the ISO
        timestamp of the call. The new record goes first, older ones follow in their
        order, at most five are kept, and what is returned is what is stored. */
    method SaveToHistory(data: PromptData, now: int, isoTime: string) returns (updated: seq<PromptRecord>)
      modifies this
      ensures updated == Prepend(old(History()), PromptRecord(now, data, isoTime))
      ensures stored == Some(updated) && History() == updated
      ensures |History()| <= MaxHistory && History()[0] == PromptRecord(now, data, isoTime)
    {
      var history := GetHistory();
      var newPrompt := PromptRecord(now, data, isoTime);
      updated := ([newPrompt] + history)[..if |history| < MaxHistory then |history| + 1 else MaxHistory];
      stored := Some(updated);
    }

    /** clearHistory: removes the key and returns the empty list. */
    method ClearHistory() returns (cleared: seq<PromptRecord>)
      modifies this
      ensures stored == None && cleared == [] && History() == []
    {
      stored := None;
      cleared := [];
    }

    /** exportPromptsAsText */
    method ExportPromptsAsText(localeTime: string -> string) returns (text: string)
      ensures text == ExportText(History(), localeTime)
    {
      var history := GetHistory();
      if |history| == 0 {
        return EmptyExport;
      }
      text := "PromptCraft - Exported Prompts\n";
      text := text + EqualsRule + "\n\n";
      var index := 0;
      assert text == ExportHeader;
      assert EntryBlocks(history, 1, localeTime)[..index] == [];
      while index < |history|
        invariant 0 <= index <= |history|
        invariant text == ExportHeader + Join(EntryBlocks(history, 1, localeTime)[..index])
      {
        var entry := history[index];
        ghost var before := text;
        text := text + (NatToString(index + 1) + ". " + KindLabel(entry.data.kind) + "\n");
        text := text + (ProblemTag + entry.data.problem + "\n");
        text := text + (ToneTag + entry.data.tone + "\n");
        text := text + (GeneratedTag + localeTime(entry.timestamp) + "\n");
        text := text + (SystemTag + entry.data.system + "\n");
        text := text + (UserTag + entry.data.prompt + "\n");
        text := text + (DashRule + "\n\n");
        AppendSeven(before, NatToString(index + 1) + ". " + KindLabel(entry.data.kind) + "\n",
                    ProblemTag + entry.data.problem + "\n", ToneTag + entry.data.tone + "\n",
                    GeneratedTag + localeTime(entry.timestamp) + "\n",
                    SystemTag + entry.data.system + "\n", UserTag + entry.data.prompt + "\n",
                    DashRule + "\n\n");
        ghost var block := EntryBlock(entry, index + 1, localeTime);
        assert text == before + block;
        ghost var blocks := EntryBlocks(history, 1, localeTime);
        assert blocks[index] == block;
        JoinPrefixStep(blocks, index);
        AppendThree(ExportHeader, Join(blocks[..index]), block);
        index := index + 1;
      }
      assert EntryBlocks(history, 1, localeTime)[..index] == EntryBlocks(history, 1, localeTime);
    }
  }
}
