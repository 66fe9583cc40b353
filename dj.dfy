/** The DJ rules of src/DJManager.js: the prompt table and its hour-of-day weighting,
    the bounded history of generated texts, the statistics derived from it, the
    fallback decision of a DJ break, and the choice of temp files to delete. The
    language model, text-to-speech, the clock, `Math.random` and the file system are
    inputs. */
module DJ {
  import opened Wrappers
  import JsText

  /** One entry of `djPrompts`: its `type` and the word limit its system prompt sets
      for the reply. */
  datatype DjPrompt = DjPrompt(kind: string, wordLimit: nat)

  function DjPrompts(): (r: seq<DjPrompt>)
    ensures |r| == 7
  {
    [ DjPrompt("welcome", 30),
      DjPrompt("transition", 25),
      DjPrompt("time_of_day", 30),
      DjPrompt("music_fact", 35),
      DjPrompt("station_id", 20),
      DjPrompt("weather_music", 30),
      DjPrompt("community", 30) ]
  }

  /** The seven types are distinct, include the four the hour favours, and every
      prompt sets a word limit ("under N words") between 20 and 35. */
  lemma PromptTable()
    ensures var r := DjPrompts();
      && (forall i, j :: 0 <= i < j < |r| ==> r[i].kind != r[j].kind)
      && (forall i :: 0 <= i < |r| ==> 20 <= r[i].wordLimit <= 35)
      && {"time_of_day", "transition", "music_fact", "community"} <= set p | p in r :: p.kind
  {
    var r := DjPrompts();
    assert r[1].kind == "transition" && r[2].kind == "time_of_day";
    assert r[3].kind == "music_fact" && r[6].kind == "community";
  }

  /** `Array.prototype.find` by prompt type: the first prompt of that type. */
  function FindKind(ps: seq<DjPrompt>, kind: string): (r: Option<DjPrompt>)
    ensures r.Some? ==> r.value in ps && r.value.kind == kind
    ensures r.None? ==> forall i :: 0 <= i < |ps| ==> ps[i].kind != kind
  {
    if |ps| == 0 then None
    else if ps[0].kind == kind then Some(ps[0])
    else FindKind(ps[1..], kind)
  }

  /** What `find` returns is the FIRST prompt of that type: none before it has it. */
  lemma {:induction false} FindKindFirst(ps: seq<DjPrompt>, kind: string)
    ensures FindKind(ps, kind).Some? ==>
      exists i :: 0 <= i < |ps| && ps[i] == FindKind(ps, kind).value
                  && forall k :: 0 <= k < i ==> ps[k].kind != kind
  {
    if |ps| > 0 && ps[0].kind != kind && FindKind(ps, kind).Some? {
      FindKindFirst(ps[1..], kind);
      var i :| 0 <= i < |ps| - 1 && ps[1..][i] == FindKind(ps, kind).value
               && forall k :: 0 <= k < i ==> ps[1..][k].kind != kind;
      assert ps[i + 1] == FindKind(ps, kind).value;
      assert forall k :: 0 <= k < i + 1 ==> ps[k].kind != kind by {
        forall k | 0 <= k < i + 1 ensures ps[k].kind != kind {
          if k > 0 { assert ps[k] == ps[1..][k - 1]; }
        }
      }
    }
  }

  /** `Array(n).fill(p)`. */
  function Repeat(n: nat, p: DjPrompt): (r: seq<DjPrompt>)
    ensures |r| == n && forall i :: 0 <= i < n ==> r[i] == p
  {
    if n == 0 then [] else [p] + Repeat(n - 1, p)
  }

  /** The prompt type favoured at `hour` and how many extra copies of it are added. */
  function Favoured(hour: int): (string, nat) {
    if 6 <= hour < 12 then ("time_of_day", 3)
    else if 12 <= hour < 18 then ("transition", 2)
    else if 18 <= hour < 22 then ("music_fact", 2)
    else ("community", 2)
  }

  /** `availablePrompts` of `getRandomPrompt`. */
  function Candidates(hour: int): seq<DjPrompt> {
    var (kind, n) := Favoured(hour);
    match FindKind(DjPrompts(), kind)
    case Some(p) => DjPrompts() + Repeat(n, p)
    case None => DjPrompts()
  }

  /** The number of entries of `ps` of type `kind`. */
  function CountKind(ps: seq<DjPrompt>, kind: string): nat {
    if |ps| == 0 then 0 else (if ps[0].kind == kind then 1 else 0) + CountKind(ps[1..], kind)
  }

  lemma {:induction false} CountKindAppend(a: seq<DjPrompt>, b: seq<DjPrompt>, kind: string)
    ensures CountKind(a + b, kind) == CountKind(a, kind) + CountKind(b, kind)
  {
    if |a| == 0 {
      assert a + b == b;
    } else {
      assert (a + b)[1..] == a[1..] + b;
      CountKindAppend(a[1..], b, kind);
    }
  }

  lemma {:induction false} CountKindRepeat(n: nat, p: DjPrompt, kind: string)
    ensures CountKind(Repeat(n, p), kind) == if p.kind == kind then n else 0
  {
    if n > 0 {
      assert Repeat(n, p)[1..] == Repeat(n - 1, p);
      CountKindRepeat(n - 1, p, kind);
    }
  }

  /** A kind that occurs in a list of distinct kinds occurs once. */
  lemma {:induction false} CountKindDistinct(ps: seq<DjPrompt>, kind: string)
    requires forall i, j :: 0 <= i < j < |ps| ==> ps[i].kind != ps[j].kind
    ensures CountKind(ps, kind) == if exists i :: 0 <= i < |ps| && ps[i].kind == kind then 1 else 0
  {
    if |ps| > 0 {
      CountKindDistinct(ps[1..], kind);
      if ps[0].kind == kind {
        assert forall i :: 0 <= i < |ps[1..]| ==> ps[1..][i].kind != kind by {
          forall i | 0 <= i < |ps[1..]| ensures ps[1..][i].kind != kind {
            assert ps[1..][i] == ps[i + 1];
          }
        }
      } else if exists i :: 0 <= i < |ps| && ps[i].kind == kind {
        var i :| 0 <= i < |ps| && ps[i].kind == kind;
        assert ps[1..][i - 1].kind == kind;
      }
    }
  }

  /** The favoured type is always in the table, so its copies are appended. */
  lemma CandidatesUnfold(hour: int)
    ensures FindKind(DjPrompts(), Favoured(hour).0).Some?
    ensures Candidates(hour) ==
      DjPrompts() + Repeat(Favoured(hour).1, FindKind(DjPrompts(), Favoured(hour).0).value)
  {
    PromptTable();
    var fav := Favoured(hour).0;
    assert fav in set p | p in DjPrompts() :: p.kind;
  }

  lemma PrefixOfAppend<T>(a: seq<T>, b: seq<T>)
    ensures (a + b)[..|a|] == a
  {
  }

  /** All seven prompts followed by the extra copies of the favoured type: ten
      candidates in the morning and nine otherwise. */
  lemma CandidatesShape(hour: int)
    ensures |Candidates(hour)| == (if 6 <= hour < 12 then 10 else 9)
    ensures Candidates(hour)[..7] == DjPrompts()
    ensures forall i :: 7 <= i < |Candidates(hour)| ==> Candidates(hour)[i].kind == Favoured(hour).0
  {
    CandidatesUnfold(hour);
    var base := DjPrompts();
    var n := Favoured(hour).1;
    assert n == (if 6 <= hour < 12 then 3 else 2);
    var rep: seq<DjPrompt> := Repeat(n, FindKind(base, Favoured(hour).0).value);
    assert |base + rep| == 7 + n;
    PrefixOfAppend(base, rep);
    forall i | 7 <= i < |base + rep|
      ensures (base + rep)[i].kind == Favoured(hour).0
    {
      assert (base + rep)[i] == rep[i - 7];
    }
  }

  /** The weighting: the favoured type holds 1 + n of the candidates (4 of 10 in the
      morning, 3 of 9 otherwise) and every other type of the table exactly one. */
  lemma CandidatesWeighting(hour: int, kind: string)
    requires kind in set p | p in DjPrompts() :: p.kind
    ensures CountKind(Candidates(hour), kind) ==
      if kind == Favoured(hour).0 then 1 + Favoured(hour).1 else 1
  {
    CandidatesUnfold(hour);
    var base := DjPrompts();
    var p := FindKind(base, Favoured(hour).0).value;
    CountKindAppend(base, Repeat(Favoured(hour).1, p), kind);
    CountKindRepeat(Favoured(hour).1, p, kind);
    PromptTable();
    var q :| q in base && q.kind == kind;
    var i :| 0 <= i < |base| && base[i] == q;
    CountKindDistinct(base, kind);
    assert CountKind(base, kind) == 1;
  }

  /** `getRandomPrompt` at `hour`, with `pick` standing for
      `Math.floor(Math.random() * availablePrompts.length)`. */
  function GetRandomPrompt(hour: int, pick: nat): (r: DjPrompt)
    requires pick < |Candidates(hour)|
    ensures r in DjPrompts()
  {
    CandidatesFromTable(hour, pick);
    Candidates(hour)[pick]
  }

  lemma CandidatesFromTable(hour: int, pick: nat)
    requires pick < |Candidates(hour)|
    ensures Candidates(hour)[pick] in DjPrompts()
  {
    CandidatesUnfold(hour);
    if pick >= 7 {
      var p := FindKind(DjPrompts(), Favoured(hour).0).value;
      assert Candidates(hour)[pick] == Repeat(Favoured(hour).1, p)[pick - 7];
    }
  }

  // ---------------------------------------------------------------- history

  const HistoryLimit: nat := 10

  /** `s.slice(-k)` for k > 0: the last k entries, or all of them. */
  function LastEntries<T>(s: seq<T>, k: nat): (r: seq<T>)
    ensures |r| == if |s| <= k then |s| else k
    ensures r == s[|s| - |r|..]
  {
    if |s| <= k then s else s[|s| - k..]
  }

  /** The history update of `generateDJText`: push, then keep the last ten. */
  function Remember(history: seq<string>, text: string): seq<string> {
    var h := history + [text];
    if |h| > HistoryLimit then h[|h| - HistoryLimit..] else h
  }

  /** The new text is last, earlier entries keep their order, and the history never
      grows beyond ten: it is exactly the last (up to) ten of the old one plus the new
      text. */
  lemma RememberKeepsLastTen(history: seq<string>, text: string)
    ensures Remember(history, text) == LastEntries(history + [text], HistoryLimit)
    ensures |Remember(history, text)| == if |history| < HistoryLimit then |history| + 1 else HistoryLimit
    ensures Remember(history, text)[|Remember(history, text)| - 1] == text
  {
  }

  /** Recording several texts in turn. */
  function RememberAll(history: seq<string>, texts: seq<string>): seq<string>
    decreases |texts|
  {
    if texts == [] then history else RememberAll(Remember(history, texts[0]), texts[1..])
  }

  /** However many texts are recorded, starting from a history of at most ten the
      history is the last (up to) ten of everything, in order. */
  lemma {:induction false} RememberAllIsSuffix(history: seq<string>, texts: seq<string>)
    requires |history| <= HistoryLimit
    ensures RememberAll(history, texts) == LastEntries(history + texts, HistoryLimit)
    decreases |texts|
  {
    if texts != [] {
      RememberAllIsSuffix(Remember(history, texts[0]), texts[1..]);
      RememberThenAppend(history, texts[0], texts[1..]);
      assert history + [texts[0]] + texts[1..] == history + texts;
    }
  }

  /** Trimming the history before appending more does not change its last ten. */
  lemma RememberThenAppend(history: seq<string>, text: string, more: seq<string>)
    ensures LastEntries(Remember(history, text) + more, HistoryLimit)
         == LastEntries(history + [text] + more, HistoryLimit)
  {
    var h := history + [text];
    if |h| > HistoryLimit {
      assert Remember(history, text) + more == (h + more)[|h| - HistoryLimit..];
    }
  }

  /** The completion text kept by `generateDJText`: trimmed, and only if non-empty. */
  function Accepted(reply: Option<string>): (r: Option<string>)
    ensures r.Some? ==> r.value != [] && reply.Some? && r.value == JsText.Trim(reply.value)
    ensures reply.Some? && JsText.Trim(reply.value) != [] ==> r.Some?
  {
    match reply
    case None => None
    case Some(raw) => var t := JsText.Trim(raw); if t != "" then Some(t) else None
  }

  /** The text a DJ break hands to text-to-speech: none without a client. */
  function GeneratedText(aiEnabled: bool, reply: Option<string>): Option<string> {
    if aiEnabled then Accepted(reply) else None
  }

  /** The record `getDJStats` returns. */
  datatype DjStats = DjStats(aiEnabled: bool, recentMessages: seq<string>, totalMessages: nat)

  function Stats(aiEnabled: bool, history: seq<string>): DjStats {
    DjStats(aiEnabled, LastEntries(history, 5), |history|)
  }

  /** The stats report the last (up to) five messages in order and the history's
      length, which never exceeds ten. */
  lemma StatsOfHistory(aiEnabled: bool, history: seq<string>, text: string)
    ensures var st := Stats(aiEnabled, Remember(history, text));
      && st.aiEnabled == aiEnabled
      && st.totalMessages <= HistoryLimit
      && |st.recentMessages| == (if st.totalMessages < 5 then st.totalMessages else 5)
      && st.recentMessages[|st.recentMessages| - 1] == text
      && (forall i :: 0 <= i < |st.recentMessages| ==>
            st.recentMessages[i] == Remember(history, text)[st.totalMessages - |st.recentMessages| + i])
  {
  }

  // ---------------------------------------------------------------- DJ breaks

  /** The audio `textToSpeech` produces for a text. */
  datatype Speech = Speech(text: string)

  const DefaultMessageCount: nat := 10

  /** Entry `i` of the fixed `defaultMessages` list. */
  function DefaultMessage(i: nat): string
    requires i < DefaultMessageCount
  {
    if i == 0 then "You're listening to SriRadio, where the music never stops!"
    else
    if i == 1 then "SriRadio keeps the beats flowing twenty four seven."
    else
    if i == 2 then "Thanks for tuning in to SriRadio, your non-stop music destination."
    else
    if i == 3 then "This is SriRadio, bringing you continuous music all day long."
    else
    if i == 4 then "Keep it locked to SriRadio for the best music mix."
    else
    if i == 5 then "SriRadio, where every song is a good song."
    else
    if i == 6 then "You're vibing with SriRadio, your favorite music stream."
    else
    if i == 7 then "Stay tuned to SriRadio for more amazing music."
    else
    if i == 8 then "SriRadio, broadcasting the best tunes around the clock."
    else "Thanks for listening to SriRadio, where music lives."
  }

  /** `generateDefaultDJBreak`: one of the fixed messages, or `null` when its
      text-to-speech fails. */
  function DefaultBreak(pick: nat, speechOk: bool): Option<Speech>
    requires pick < DefaultMessageCount
  {
    if speechOk then Some(Speech(DefaultMessage(pick))) else None
  }

  /** The decision of `generateDJBreak`, given the accepted text (`None` without a
      client or when generation yielded nothing) and whether its speech succeeded. */
  function BreakClip(aiEnabled: bool, text: Option<string>, speechOk: bool,
                     defaultPick: nat, defaultSpeechOk: bool): Option<Speech>
    requires defaultPick < DefaultMessageCount
  {
    if aiEnabled && text.Some? then
      if speechOk then Some(Speech(text.value)) else DefaultBreak(defaultPick, defaultSpeechOk)
    else DefaultBreak(defaultPick, defaultSpeechOk)
  }

  /** Generated text is spoken only when there is a client and the text is not null;
      every other path (no client, null text, failed speech) falls back to the
      default clip, which is one of the fixed messages; `null` only comes from a
      failed default speech. */
  lemma BreakFallback(aiEnabled: bool, reply: Option<string>, speechOk: bool,
                      defaultPick: nat, defaultSpeechOk: bool)
    requires defaultPick < DefaultMessageCount
    ensures var text := GeneratedText(aiEnabled, reply);
      var clip := BreakClip(aiEnabled, text, speechOk, defaultPick, defaultSpeechOk);
      && (aiEnabled && text.Some? && speechOk ==> clip == Some(Speech(text.value)) && clip.value.text != [])
      && (!(aiEnabled && text.Some? && speechOk) ==> clip == DefaultBreak(defaultPick, defaultSpeechOk))
      && (clip.Some? ==> clip.value.text == DefaultMessage(defaultPick) || (aiEnabled && clip.value.text == text.value))
      && (clip.None? ==> !defaultSpeechOk)
  {
  }

  // ---------------------------------------------------------------- temp files

  /** An entry of the temp directory: its name, its modification time (`None` when
      `fs.stat` throws) and whether `fs.unlink` succeeds. */
  datatype TempFile = TempFile(name: string, mtime: Option<int>, unlinkOk: bool)

  const MaxTempAge: int := 60 * 60 * 1000

  predicate NameMatches(name: string) {
    JsText.StartsWith(name, "dj_") && JsText.EndsWith(name, ".mp3")
  }

  predicate Eligible(f: TempFile, now: int) {
    NameMatches(f.name) && f.mtime.Some? && now - f.mtime.value > MaxTempAge
  }

  /** The names `cleanupTempFiles` deletes: eligible ones in directory order, until an
      `fs` call throws and the catch around the loop ends it. */
  function Removed(files: seq<TempFile>, now: int): seq<string>
    decreases |files|
  {
    if files == [] then []
    else
      var f := files[0];
      if !NameMatches(f.name) then Removed(files[1..], now)
      else match f.mtime
        case None => []
        case Some(m) =>
          if now - m <= MaxTempAge then Removed(files[1..], now)
          else if !f.unlinkOk then []
          else [f.name] + Removed(files[1..], now)
  }

  /** No `fs` call on a matching name throws. */
  predicate NoFsErrors(files: seq<TempFile>, now: int) {
    forall i :: 0 <= i < |files| && NameMatches(files[i].name) ==>
      files[i].mtime.Some? && (now - files[i].mtime.value > MaxTempAge ==> files[i].unlinkOk)
  }

  /** Only names starting with `dj_`, ending with `.mp3` and older than an hour are
      deleted, in directory order; when no file-system call throws, every such name is. */
  lemma {:induction false} RemovedExactlyEligible(files: seq<TempFile>, now: int)
    ensures forall n :: n in Removed(files, now) ==>
      exists i :: 0 <= i < |files| && files[i].name == n && Eligible(files[i], now)
    ensures NoFsErrors(files, now) ==>
      forall i :: 0 <= i < |files| && Eligible(files[i], now) ==> files[i].name in Removed(files, now)
    decreases |files|
  {
    if files != [] {
      var rest := files[1..];
      RemovedExactlyEligible(rest, now);
      forall n | n in Removed(rest, now)
        ensures exists i :: 0 <= i < |files| && files[i].name == n && Eligible(files[i], now)
      {
        var i :| 0 <= i < |rest| && rest[i].name == n && Eligible(rest[i], now);
        assert files[i + 1] == rest[i];
      }
      if NoFsErrors(files, now) {
        assert NoFsErrors(rest, now) by {
          forall i | 0 <= i < |rest| && NameMatches(rest[i].name)
            ensures rest[i].mtime.Some? && (now - rest[i].mtime.value > MaxTempAge ==> rest[i].unlinkOk)
          {
            assert rest[i] == files[i + 1];
          }
        }
        forall i | 0 <= i < |files| && Eligible(files[i], now)
          ensures files[i].name in Removed(files, now)
        {
          if i > 0 {
            assert rest[i - 1] == files[i];
          }
        }
      }
    }
  }

  // ---------------------------------------------------------------- the manager object

  /** The DJ manager: whether an Anthropic client is configured, and the history
      `lastDJContent`, updated in place. */
  class DJManager {
    const aiEnabled: bool
    var lastDJContent: seq<string>

    predicate Valid()
      reads this
    {
      |lastDJContent| <= HistoryLimit
    }

    constructor (aiEnabled: bool)
      ensures this.aiEnabled == aiEnabled && lastDJContent == [] && Valid()
    {
      this.aiEnabled := aiEnabled;
      lastDJContent := [];
    }

    /** `generateDJText` given the model's raw reply (`None` when the call throws or the
        first content block has no text); `avoided` is the history the anti-repeat
        hint lists. */
    method GenerateDJText(prompt: DjPrompt, reply: Option<string>) returns (text: Option<string>, avoided: seq<string>)
      requires Valid()
      modifies this
      ensures avoided == LastEntries(old(lastDJContent), 3)
      ensures text == Accepted(reply)
      ensures lastDJContent == if text.Some? then Remember(old(lastDJContent), text.value) else old(lastDJContent)
      ensures Valid()
    {
      avoided := LastEntries(lastDJContent, 3);
      text := None;
      if reply.Some? {
        var t := JsText.Trim(reply.value);
        if t != "" {
          lastDJContent := lastDJContent + [t];
          if |lastDJContent| > HistoryLimit {
            lastDJContent := lastDJContent[|lastDJContent| - HistoryLimit..];
          }
          text := Some(t);
        }
      }
    }

    /** `generateDJBreak`, with the hour, the random picks, the model's reply and the
        success of each text-to-speech call as inputs. */
    method GenerateDJBreak(hour: int, promptPick: nat, reply: Option<string>, speechOk: bool,
                           defaultPick: nat, defaultSpeechOk: bool) returns (clip: Option<Speech>)
      requires Valid()
      requires promptPick < |Candidates(hour)| && defaultPick < DefaultMessageCount
      modifies this
      ensures clip == BreakClip(aiEnabled, GeneratedText(aiEnabled, reply), speechOk, defaultPick, defaultSpeechOk)
      ensures lastDJContent == match GeneratedText(aiEnabled, reply)
        case Some(t) => Remember(old(lastDJContent), t)
        case None => old(lastDJContent)
      ensures Valid()
    {
      if !aiEnabled {
        clip := DefaultBreak(defaultPick, defaultSpeechOk);
        return;
      }
      var prompt := GetRandomPrompt(hour, promptPick);
      var text, _ := GenerateDJText(prompt, reply);
      if text.Some? {
        if speechOk {
          clip := Some(Speech(text.value));
        } else {
          clip := DefaultBreak(defaultPick, defaultSpeechOk);
        }
        return;
      }
      clip := DefaultBreak(defaultPick, defaultSpeechOk);
    }

    /** `getDJStats`: the total never exceeds the ten entries the history keeps. */
    function GetDJStats(): (r: DjStats)
      reads this
      ensures r.totalMessages == |lastDJContent| && r.aiEnabled == aiEnabled
      ensures Valid() ==> r.totalMessages <= 10 && |r.recentMessages| <= 5
    {
      Stats(aiEnabled, lastDJContent)
    }

    /** `cleanupTempFiles`: `listing` is the directory listing (`None` when `readdir`
        throws); the result lists the names unlinked, in order. */
    method CleanupTempFiles(listing: Option<seq<TempFile>>, now: int) returns (deleted: seq<string>)
      ensures deleted == match listing case None => [] case Some(files) => Removed(files, now)
      ensures forall n :: n in deleted ==> NameMatches(n)
    {
      deleted := [];
      if listing.None? {
        return;
      }
      var files := listing.value;
      var i := 0;
      while i < |files|
        invariant 0 <= i <= |files|
        invariant deleted + Removed(files[i..], now) == Removed(files, now)
        invariant forall n :: n in deleted ==> NameMatches(n)
      {
        var f := files[i];
        assert files[i..][1..] == files[i + 1..];
        if NameMatches(f.name) {
          if f.mtime.None? {
            break;
          }
          if now - f.mtime.value > MaxTempAge {
            if !f.unlinkOk {
              break;
            }
            deleted := deleted + [f.name];
          }
        }
        i := i + 1;
      }
    }
  }
}
