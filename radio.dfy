/** The playback and reconnection state machine of `SriRadioBot` (index.js).
    Timers are explicit pending events: the cancellable retry timer is the field
    `playNextTimeout`, every other timer sits in the multiset `timers` until a
    `Fire...` step runs its callback. Player and connection signals, the outcome of
    fetching and starting the next track, the DJ clip and the guild's channel cache
    are inputs of the steps. */
module Radio {
  import opened Wrappers
  import JsText

  // ---------------------------------------------------------------- channel choice

  /** A guild channel as the client's cache holds it; `kind` 2 is a voice channel. */
  datatype Channel = Channel(id: string, name: string, kind: int, memberCount: nat)

  datatype Guild = Guild(channels: seq<Channel>)

  const VoiceChannelType: int := 2

  /** `Collection.find`: the position of the first element that satisfies `p`. */
  function FindIndex<T>(s: seq<T>, p: T -> bool): (r: Option<nat>)
    ensures r.Some? ==> r.value < |s| && p(s[r.value]) && forall k :: 0 <= k < r.value ==> !p(s[k])
    ensures r.None? ==> forall k :: 0 <= k < |s| ==> !p(s[k])
  {
    if |s| == 0 then None
    else if p(s[0]) then Some(0)
    else match FindIndex(s[1..], p)
      case None => None
      case Some(k) => Some(k + 1)
  }

  function Find<T>(s: seq<T>, p: T -> bool): Option<T> {
    match FindIndex(s, p)
    case None => None
    case Some(k) => Some(s[k])
  }

  predicate IsVoice(c: Channel) {
    c.kind == VoiceChannelType
  }

  predicate IsOccupiedVoice(c: Channel) {
    c.kind == VoiceChannelType && c.memberCount > 0
  }

  /** The channel `autoJoinAndPlay` joins: the configured `VOICE_CHANNEL_ID` when it
      is set (non-empty) and in the cache, else the first voice channel with members,
      else the first voice channel, else none. */
  function ChooseChannel(configured: Option<string>, channels: seq<Channel>): Option<Channel> {
    var byId :=
      match configured
      case Some(id) => if id != "" then Find(channels, (c: Channel) => c.id == id) else None
      case None => None;
    if byId.Some? then byId
    else
      var occupied := Find(channels, IsOccupiedVoice);
      if occupied.Some? then occupied else Find(channels, IsVoice)
  }

  predicate Configured(configured: Option<string>, channels: seq<Channel>) {
    configured.Some? && configured.value != "" && exists k :: 0 <= k < |channels| && channels[k].id == configured.value
  }

  /** The three fallback steps, each taken exactly when every earlier one found
      nothing, and each returning the FIRST matching channel of the cache. */
  lemma ChannelChoiceOrder(configured: Option<string>, channels: seq<Channel>)
    ensures var r := ChooseChannel(configured, channels);
      && (Configured(configured, channels) ==>
            exists k :: 0 <= k < |channels| && r == Some(channels[k])
              && channels[k].id == configured.value
              && forall j :: 0 <= j < k ==> channels[j].id != configured.value)
      && (!Configured(configured, channels) && (exists k :: 0 <= k < |channels| && IsOccupiedVoice(channels[k])) ==>
            exists k :: 0 <= k < |channels| && r == Some(channels[k])
              && IsOccupiedVoice(channels[k])
              && forall j :: 0 <= j < k ==> !IsOccupiedVoice(channels[j]))
      && (!Configured(configured, channels) && (forall k :: 0 <= k < |channels| ==> !IsOccupiedVoice(channels[k])) ==>
            r == Find(channels, IsVoice))
      && (r.None? <==> !Configured(configured, channels) && forall k :: 0 <= k < |channels| ==> !IsVoice(channels[k]))
  {
    var r := ChooseChannel(configured, channels);
    if Configured(configured, channels) {
      var id := configured.value;
      var i := FindIndex(channels, (c: Channel) => c.id == id);
      var k :| 0 <= k < |channels| && channels[k].id == id;
      assert ((c: Channel) => c.id == id)(channels[k]);
      assert i.Some? && r == Some(channels[i.value]);
    } else {
      var o := FindIndex(channels, IsOccupiedVoice);
      if o.Some? {
        assert r == Some(channels[o.value]);
      }
      var v := FindIndex(channels, IsVoice);
      if v.Some? {
        assert IsVoice(channels[v.value]);
      }
    }
  }

  // ---------------------------------------------------------------- the DJ-break interval

  const DefaultDjBreakInterval: int := 300000

  /** `parseInt(process.env.DJ_BREAK_INTERVAL) || 300000`: NaN and 0 are falsy. */
  function DjBreakInterval(setting: Option<string>): int {
    var parsed := match setting case None => None case Some(s) => JsText.ParseInt(s);
    match parsed
    case Some(v) => if v != 0 then v else DefaultDjBreakInterval
    case None => DefaultDjBreakInterval
  }

  /** Node's `setTimeout` runs a delay below 1 or above 2^31 - 1 after 1 ms; a delay
      in range is waited as given. */
  function NodeTimerDelay(d: int): (r: int)
    ensures 1 <= r <= 0x7FFF_FFFF
    ensures 1 <= d <= 0x7FFF_FFFF ==> r == d
  {
    if 1 <= d <= 0x7FFF_FFFF then d else 1
  }

  /** The default applies exactly when the variable is missing or reads as NaN or 0;
      a positive decimal setting is taken as written; the timer that results always
      fires after 1 .. 2^31 - 1 ms. */
  lemma DjBreakIntervalChoice(setting: Option<string>, n: nat)
    ensures DjBreakInterval(setting) == DefaultDjBreakInterval
        <==> setting.None? || JsText.ParseInt(setting.value) in {None, Some(0), Some(DefaultDjBreakInterval)}
    ensures DjBreakInterval(None) == DefaultDjBreakInterval
    ensures DjBreakInterval(Some(JsText.DecimalString(n))) == if n == 0 then DefaultDjBreakInterval else n
    ensures 1 <= NodeTimerDelay(DjBreakInterval(setting)) <= 0x7FFF_FFFF
  {
    JsText.ParseIntDecimal(n);
  }

  // ---------------------------------------------------------------- session state

  datatype ConnStatus = Signalling | Ready | Disconnected | Destroyed

  /** The voice connection `this.connection`, by the channel it joined and its status. */
  datatype Connection = Connection(channelId: string, status: ConnStatus)

  /** What the audio player is doing. `Draining` is the state after `player.stop()`:
      the player still sends its silence padding and reports Idle afterwards. */
  datatype Output = Silent | Music(title: string) | DjClip | Draining

  datatype TimerEvent = GraceCheck | AutoJoin | DjBreak | DjResume

  /** A pending `setTimeout` other than the playNext retry, with its delay in ms. */
  datatype Timer = Timer(event: TimerEvent, delay: int)

  /** The outcome of one `playNext` body: the track fetched and started, `null` from
      the queue, or an exception while creating or playing the resource. */
  datatype Fetch = Track(title: string) | NoTrack | PlayFailed

  /** The outcome of `djManager.generateDJBreak()` and playing it. */
  datatype BreakAudio = Clip | NoClip | BreakFailed

  /** The environment variables the state machine reads. */
  datatype Config = Config(voiceChannelId: Option<string>, djBreakInterval: Option<string>)

  /** The bot's mutable fields, plus the player's output, the number of pending
      `player.once(Idle, ...)` handlers and the pending timers. */
  datatype Session = Session(connection: Option<Connection>, isPlaying: bool, shouldAutoPlay: bool,
                             playNextTimeout: Option<int>, output: Output, idleOnceHooks: nat,
                             timers: multiset<Timer>)

  const RetryEmptyDelay: int := 10000
  const RetryErrorDelay: int := 5000
  const GraceDelay: int := 5000
  const DestroyedRejoinDelay: int := 5000
  const FailedRejoinDelay: int := 10000
  const DjResumeDelay: int := 2000

  function DjBreakTimer(cfg: Config): Timer {
    Timer(DjBreak, NodeTimerDelay(DjBreakInterval(cfg.djBreakInterval)))
  }

  /** How long the DJ-break timer waits: five minutes when the setting is missing, and
      a positive decimal setting of at most 2^31 - 1 ms exactly as written. */
  lemma DjBreakTimerDelay(channel: Option<string>, n: nat)
    ensures DjBreakTimer(Config(channel, None)).delay == DefaultDjBreakInterval
    ensures 0 < n <= 0x7FFF_FFFF ==>
      DjBreakTimer(Config(channel, Some(JsText.DecimalString(n)))).delay == n
  {
    assert DjBreakInterval(None) == DefaultDjBreakInterval;
    JsText.ParseIntDecimal(n);
  }

  /** The constructor's state. */
  function Initial(): Session {
    Session(None, false, true, None, Silent, 0, multiset{})
  }

  /** Every retry and timer carries one of the source's fixed delays, and a grace
      check is pending only once a connection exists. */
  predicate Valid(cfg: Config, s: Session) {
    && (s.playNextTimeout.None? || s.playNextTimeout.value in {RetryEmptyDelay, RetryErrorDelay})
    && (forall t :: t in s.timers ==> TimerOk(cfg, t, s.connection.Some?))
  }

  predicate TimerOk(cfg: Config, t: Timer, connected: bool) {
    match t.event
    case GraceCheck => t.delay == GraceDelay && connected
    case AutoJoin => t.delay in {DestroyedRejoinDelay, FailedRejoinDelay}
    case DjBreak => t == DjBreakTimer(cfg)
    case DjResume => t.delay == DjResumeDelay
  }

  // ---------------------------------------------------------------- playback steps

  /** `playNext`: cancel the pending retry, then start the track or schedule one retry. */
  function PlayNext(s: Session, f: Fetch): Session {
    var s0 := s.(playNextTimeout := None);
    match f
    case Track(t) => s0.(output := Music(t), isPlaying := true)
    case NoTrack => s0.(playNextTimeout := Some(RetryEmptyDelay))
    case PlayFailed => s0.(playNextTimeout := Some(RetryErrorDelay))
  }

  /** `n` more pending 2 s resume timers. */
  function AddResumes(timers: multiset<Timer>, n: nat): multiset<Timer> {
    timers[Timer(DjResume, DjResumeDelay) := timers[Timer(DjResume, DjResumeDelay)] + n]
  }

  /** The player enters Idle: the permanent handler advances only when auto-play is
      on; every pending once-handler of a DJ break schedules a 2 s resume. */
  function OnIdle(s: Session, f: Fetch): Session {
    var s1 := s.(output := Silent, idleOnceHooks := 0, timers := AddResumes(s.timers, s.idleOnceHooks));
    if s.shouldAutoPlay then PlayNext(s1, f) else s1
  }

  /** The player's `error` event advances whatever `shouldAutoPlay` says. */
  function OnPlayerError(s: Session, f: Fetch): Session {
    PlayNext(s, f)
  }

  /** `player.stop()`: a playing player drains and then reports Idle. */
  function StopOutput(o: Output): Output {
    if o == Silent then Silent else Draining
  }

  function SkipToNext(s: Session): Session {
    s.(shouldAutoPlay := true, output := StopOutput(s.output))
  }

  function StopPlayback(s: Session): Session {
    s.(shouldAutoPlay := false, output := StopOutput(s.output), isPlaying := false, playNextTimeout := None)
  }

  function ResumePlayback(s: Session, f: Fetch): Session {
    PlayNext(s.(shouldAutoPlay := true), f)
  }

  /** The retry timer's callback `() => this.playNext()`. */
  function FireRetry(s: Session, f: Fetch): Session
    requires s.playNextTimeout.Some?
  {
    PlayNext(s, f)
  }

  // ---------------------------------------------------------------- DJ breaks

  function ScheduleDjBreak(cfg: Config, s: Session): Session {
    s.(timers := s.timers + multiset{DjBreakTimer(cfg)})
  }

  /** `playDJBreak`: play the clip and wait for the next Idle, or advance at once. */
  function PlayDjBreak(s: Session, audio: BreakAudio, f: Fetch): Session {
    match audio
    case Clip => s.(output := DjClip, idleOnceHooks := s.idleOnceHooks + 1)
    case _ => PlayNext(s, f)
  }

  /** The DJ-break timer: play the break, then schedule the next one. */
  function FireDjBreak(cfg: Config, s: Session, audio: BreakAudio, f: Fetch): Session
    requires DjBreakTimer(cfg) in s.timers
  {
    ScheduleDjBreak(cfg, PlayDjBreak(s.(timers := s.timers - multiset{DjBreakTimer(cfg)}), audio, f))
  }

  /** The 2 s timer a DJ break's once-handler set. */
  function FireDjResume(s: Session, f: Fetch): Session
    requires Timer(DjResume, DjResumeDelay) in s.timers
  {
    PlayNext(s.(timers := s.timers - multiset{Timer(DjResume, DjResumeDelay)}), f)
  }

  // ---------------------------------------------------------------- connection steps

  function JoinChannel(s: Session, ch: Channel): Session {
    s.(connection := Some(Connection(ch.id, Signalling)))
  }

  function StartRadio(cfg: Config, s: Session, f: Fetch): Session {
    ScheduleDjBreak(cfg, PlayNext(s, f))
  }

  /** `autoJoinAndPlay` with the first cached guild (`None` when there is none). */
  function AutoJoinAndPlay(cfg: Config, s: Session, guild: Option<Guild>, f: Fetch): Session {
    match guild
    case None => s
    case Some(g) =>
      match ChooseChannel(cfg.voiceChannelId, g.channels)
      case None => s
      case Some(ch) => StartRadio(cfg, JoinChannel(s, ch), f)
  }

  function SetStatus(s: Session, st: ConnStatus): Session
    requires s.connection.Some?
  {
    s.(connection := Some(s.connection.value.(status := st)))
  }

  /** The connection reports Disconnected: check again after the grace period. */
  function OnDisconnected(s: Session): Session
    requires s.connection.Some?
  {
    var s1 := SetStatus(s, Disconnected);
    s1.(timers := s1.timers + multiset{Timer(GraceCheck, GraceDelay)})
  }

  /** The connection reports Destroyed: run the auto-join again after 5 s. */
  function OnDestroyed(s: Session): Session
    requires s.connection.Some?
  {
    var s1 := SetStatus(s, Destroyed);
    s1.(timers := s1.timers + multiset{Timer(AutoJoin, DestroyedRejoinDelay)})
  }

  /** The connection recovers by itself (reaches Ready). */
  function OnReady(s: Session): Session
    requires s.connection.Some?
  {
    SetStatus(s, Ready)
  }

  /** The grace-period callback: rejoin only if still Disconnected; when `rejoin()`
      throws, `destroy()` (which reports Destroyed at once, scheduling the 5 s
      auto-join) and a further auto-join after 10 s. */
  function FireGraceCheck(s: Session, rejoinThrows: bool): Session
    requires Timer(GraceCheck, GraceDelay) in s.timers && s.connection.Some?
  {
    var s1 := s.(timers := s.timers - multiset{Timer(GraceCheck, GraceDelay)});
    if s1.connection.value.status != Disconnected then s1
    else if !rejoinThrows then SetStatus(s1, Signalling)
    else
      var s2 := OnDestroyed(s1);
      s2.(timers := s2.timers + multiset{Timer(AutoJoin, FailedRejoinDelay)})
  }

  function FireAutoJoin(cfg: Config, s: Session, t: Timer, guild: Option<Guild>, f: Fetch): Session
    requires t in s.timers && t.event == AutoJoin
  {
    AutoJoinAndPlay(cfg, s.(timers := s.timers - multiset{t}), guild, f)
  }

  // ---------------------------------------------------------------- properties

  /** The invariant holds initially, and the playback steps keep it. */
  lemma PlaybackStepsKeepValid(cfg: Config, s: Session, f: Fetch)
    requires Valid(cfg, s)
    ensures Valid(cfg, Initial())
    ensures Valid(cfg, PlayNext(s, f)) && Valid(cfg, OnPlayerError(s, f))
    ensures Valid(cfg, SkipToNext(s)) && Valid(cfg, StopPlayback(s)) && Valid(cfg, ResumePlayback(s, f))
    ensures s.playNextTimeout.Some? ==> Valid(cfg, FireRetry(s, f))
  {
  }

  /** The Idle handler keeps the invariant: the timers it adds are 2 s resumes. */
  lemma IdleKeepsValid(cfg: Config, s: Session, f: Fetch)
    requires Valid(cfg, s)
    ensures Valid(cfg, OnIdle(s, f))
  {
    var r := OnIdle(s, f);
    forall u | u in r.timers ensures TimerOk(cfg, u, r.connection.Some?) {
      if u != Timer(DjResume, DjResumeDelay) {
        assert u in s.timers;
      }
    }
  }

  /** The DJ-break steps keep the invariant. */
  lemma DjStepsKeepValid(cfg: Config, s: Session, audio: BreakAudio, f: Fetch)
    requires Valid(cfg, s)
    ensures DjBreakTimer(cfg) in s.timers ==> Valid(cfg, FireDjBreak(cfg, s, audio, f))
    ensures Timer(DjResume, DjResumeDelay) in s.timers ==> Valid(cfg, FireDjResume(s, f))
  {
  }

  /** Joining a channel and starting the radio keep the invariant. */
  lemma StartKeepsValid(cfg: Config, s: Session, ch: Channel, f: Fetch)
    requires Valid(cfg, s)
    ensures Valid(cfg, StartRadio(cfg, JoinChannel(s, ch), f))
  {
    var r := StartRadio(cfg, JoinChannel(s, ch), f);
    forall u | u in r.timers ensures TimerOk(cfg, u, r.connection.Some?) {
      if u != DjBreakTimer(cfg) {
        assert u in s.timers;
      }
    }
  }

  lemma AutoJoinKeepsValid(cfg: Config, s: Session, guild: Option<Guild>, f: Fetch, t: Timer)
    requires Valid(cfg, s)
    ensures Valid(cfg, AutoJoinAndPlay(cfg, s, guild, f))
    ensures t in s.timers && t.event == AutoJoin ==> Valid(cfg, FireAutoJoin(cfg, s, t, guild, f))
  {
    if guild.Some? {
      var ch := ChooseChannel(cfg.voiceChannelId, guild.value.channels);
      if ch.Some? {
        StartKeepsValid(cfg, s, ch.value, f);
      }
    }
    if t in s.timers && t.event == AutoJoin {
      var s1 := s.(timers := s.timers - multiset{t});
      assert Valid(cfg, s1);
      if guild.Some? {
        var ch := ChooseChannel(cfg.voiceChannelId, guild.value.channels);
        if ch.Some? {
          StartKeepsValid(cfg, s1, ch.value, f);
        }
      }
    }
  }

  /** The transport signals keep the invariant; in particular a grace check is only
      ever pending with a connection to check. */
  lemma SignalsKeepValid(cfg: Config, s: Session, rejoinThrows: bool)
    requires Valid(cfg, s)
    ensures s.connection.Some? ==> Valid(cfg, OnDisconnected(s)) && Valid(cfg, OnDestroyed(s)) && Valid(cfg, OnReady(s))
    ensures Timer(GraceCheck, GraceDelay) in s.timers ==> Valid(cfg, FireGraceCheck(s, rejoinThrows))
  {
    if Timer(GraceCheck, GraceDelay) in s.timers {
      var r := FireGraceCheck(s, rejoinThrows);
      forall u | u in r.timers ensures TimerOk(cfg, u, r.connection.Some?) {
        if u.event != AutoJoin {
          assert u in s.timers;
        }
      }
    }
  }

  /** An Idle signal advances exactly when auto-play is on; with auto-play off it
      leaves the retry timer, `isPlaying` and the output (silent) alone. */
  lemma IdleAdvancesOnlyWithAutoPlay(s: Session, f: Fetch)
    ensures !s.shouldAutoPlay ==>
      && OnIdle(s, f).output == Silent
      && OnIdle(s, f).playNextTimeout == s.playNextTimeout
      && OnIdle(s, f).isPlaying == s.isPlaying
    ensures s.shouldAutoPlay ==>
      && (f.Track? ==> OnIdle(s, f).output == Music(f.title) && OnIdle(s, f).isPlaying)
      && (!f.Track? ==> OnIdle(s, f).playNextTimeout.Some?)
  {
  }

  /** A player error advances whatever the auto-play flag says. */
  lemma ErrorAdvancesUnconditionally(s: Session, title: string, autoPlay: bool)
    ensures OnPlayerError(s.(shouldAutoPlay := autoPlay), Track(title)).output == Music(title)
    ensures OnPlayerError(s.(shouldAutoPlay := autoPlay), Track(title)).isPlaying
  {
  }

  /** `playNext` keeps at most one retry pending: the previous one is cancelled, so
      the pending retry depends only on this outcome (10 s for no track, 5 s for an
      error, none after a start); other timers are untouched and `isPlaying` is never
      cleared. */
  lemma PlayNextSingleRetry(s: Session, other: Session, f: Fetch)
    ensures PlayNext(s, f).playNextTimeout == PlayNext(other, f).playNextTimeout
    ensures PlayNext(s, f).playNextTimeout == (match f
      case Track(_) => None
      case NoTrack => Some(RetryEmptyDelay)
      case PlayFailed => Some(RetryErrorDelay))
    ensures PlayNext(s, f).timers == s.timers
    ensures s.isPlaying ==> PlayNext(s, f).isPlaying
  {
  }

  /** A burst of player errors in a row. */
  function Errors(s: Session, fs: seq<Fetch>): Session
    decreases |fs|
  {
    if fs == [] then s else Errors(OnPlayerError(s, fs[0]), fs[1..])
  }

  /** However many errors arrive in a row, one retry at most is pending afterwards,
      the one the last outcome asked for, and no other timer was added. */
  lemma {:induction false} ErrorBurstOneRetry(s: Session, fs: seq<Fetch>)
    requires fs != []
    ensures Errors(s, fs).playNextTimeout == PlayNext(s, fs[|fs| - 1]).playNextTimeout
    ensures Errors(s, fs).timers == s.timers
    decreases |fs|
  {
    if |fs| > 1 {
      ErrorBurstOneRetry(OnPlayerError(s, fs[0]), fs[1..]);
      assert fs[1..][|fs[1..]| - 1] == fs[|fs| - 1];
    }
  }

  /** A run of Idle signals. */
  function Idles(s: Session, fs: seq<Fetch>): Session
    decreases |fs|
  {
    if fs == [] then s else Idles(OnIdle(s, fs[0]), fs[1..])
  }

  /** After `stopPlayback`, with no DJ clip waiting for its Idle, any number of Idle
      signals start nothing: no output, no retry, `isPlaying` false, no timer added. */
  lemma {:induction false} StopThenIdlesStaySilent(s: Session, fs: seq<Fetch>)
    requires s.idleOnceHooks == 0
    ensures var r := Idles(StopPlayback(s), fs);
      && !r.output.Music? && r.playNextTimeout.None? && !r.isPlaying && !r.shouldAutoPlay
      && r.timers == s.timers
    decreases |fs|
  {
    if fs != [] {
      var s1 := OnIdle(StopPlayback(s), fs[0]);
      assert s1.timers == s.timers;
      assert s1 == StopPlayback(s1);
      StopThenIdlesStaySilent(s1, fs[1..]);
    }
  }

  /** As written, stopping does not hold while a DJ clip's once-handler is pending:
      its Idle schedules the 2 s resume, which starts a track despite the stop. */
  lemma StopDuringDjClipResumes(s: Session, f: Fetch, title: string)
    requires s.idleOnceHooks > 0
    ensures var r := OnIdle(StopPlayback(s), f);
      && Timer(DjResume, DjResumeDelay) in r.timers
      && FireDjResume(r, Track(title)).output == Music(title)
      && !FireDjResume(r, Track(title)).shouldAutoPlay
  {
  }

  /** `resumePlayback` turns auto-play on and advances; `skipToNext` turns it on and
      stops the output, so the Idle that follows advances. */
  lemma ResumeAndSkipAdvance(s: Session, f: Fetch)
    ensures ResumePlayback(s, f).shouldAutoPlay
    ensures ResumePlayback(s, f) == PlayNext(s.(shouldAutoPlay := true), f)
    ensures f.Track? ==> ResumePlayback(s, f).output == Music(f.title)
    ensures SkipToNext(s).shouldAutoPlay && !SkipToNext(s).output.Music?
    ensures f.Track? ==> OnIdle(SkipToNext(s), f).output == Music(f.title)
    ensures !f.Track? ==> OnIdle(SkipToNext(s), f).playNextTimeout.Some?
  {
  }

  /** The reconnect sequence after a Disconnected signal and its 5 s grace period:
      recovered in time, nothing is attempted; still down, a rejoin; a rejoin that
      throws destroys the connection and leaves two auto-joins pending (5 s from the
      Destroyed signal that `destroy()` raises, 10 s from the catch). */
  lemma DisconnectSequence(s: Session, recovered: bool, rejoinThrows: bool)
    requires s.connection.Some?
    ensures var d := OnDisconnected(s);
      var w := if recovered then OnReady(d) else d;
      var r := FireGraceCheck(w, rejoinThrows);
      && Timer(GraceCheck, GraceDelay) in d.timers
      && (recovered ==> r.connection.value.status == Ready && r.timers == s.timers)
      && (!recovered && !rejoinThrows ==> r.connection.value.status == Signalling && r.timers == s.timers)
      && (!recovered && rejoinThrows ==>
            && r.connection.value.status == Destroyed
            && r.timers == s.timers + multiset{Timer(AutoJoin, DestroyedRejoinDelay), Timer(AutoJoin, FailedRejoinDelay)})
      && r.connection.value.channelId == s.connection.value.channelId
      && r.output == s.output && r.playNextTimeout == s.playNextTimeout
  {
    var d := OnDisconnected(s);
    assert d.timers - multiset{Timer(GraceCheck, GraceDelay)} == s.timers;
  }

  /** A Destroyed signal schedules exactly one auto-join, after 5 s. */
  lemma DestroyedSchedulesRejoin(s: Session)
    requires s.connection.Some?
    ensures OnDestroyed(s).timers == s.timers + multiset{Timer(AutoJoin, DestroyedRejoinDelay)}
    ensures OnDestroyed(s).connection.value.status == Destroyed
  {
  }

  /** A successful auto-join connects to the chosen channel, advances, and adds one
      more DJ-break timer (earlier chains keep running); without a channel nothing
      changes. */
  lemma AutoJoinEffect(cfg: Config, s: Session, guild: Option<Guild>, f: Fetch)
    ensures var r := AutoJoinAndPlay(cfg, s, guild, f);
      match guild
      case None => r == s
      case Some(g) =>
        match ChooseChannel(cfg.voiceChannelId, g.channels)
        case None => r == s
        case Some(ch) =>
          && r.connection == Some(Connection(ch.id, Signalling))
          && r.timers == s.timers + multiset{DjBreakTimer(cfg)}
          && r.playNextTimeout == PlayNext(s, f).playNextTimeout
          && r.output == PlayNext(s, f).output
  {
  }

  /** A DJ-break timer always re-arms exactly once; a clip takes the output and
      waits for its Idle, anything else advances at once. */
  lemma DjBreakCycle(cfg: Config, s: Session, audio: BreakAudio, f: Fetch)
    requires DjBreakTimer(cfg) in s.timers
    ensures var r := FireDjBreak(cfg, s, audio, f);
      && r.timers == s.timers
      && (audio == Clip ==> r.output == DjClip && r.idleOnceHooks == s.idleOnceHooks + 1
                            && r.playNextTimeout == s.playNextTimeout)
      && (audio != Clip ==> r.output == PlayNext(s, f).output && r.playNextTimeout == PlayNext(s, f).playNextTimeout)
  {
    assert (s.timers - multiset{DjBreakTimer(cfg)}) + multiset{DjBreakTimer(cfg)} == s.timers;
  }

  /** The clip's Idle resumes the music twice as written: the permanent handler at
      once (with auto-play on) and, for every once-handler then pending, a resume
      timer 2 s later. */
  lemma DjClipIdle(cfg: Config, s: Session, f: Fetch, g: Fetch)
    requires DjBreakTimer(cfg) in s.timers
    ensures var i := OnIdle(FireDjBreak(cfg, s, Clip, f), g);
      && i.timers[Timer(DjResume, DjResumeDelay)] == s.timers[Timer(DjResume, DjResumeDelay)] + s.idleOnceHooks + 1
      && i.idleOnceHooks == 0
      && (s.shouldAutoPlay && g.Track? ==> i.output == Music(g.title))
      && (!s.shouldAutoPlay ==> i.output == Silent)
  {
    DjBreakCycle(cfg, s, Clip, f);
  }
}

/** The `SriRadioBot` object itself: its fields, and handlers and control methods
    whose bodies update them in place, each proved to perform the step of the same
    name in module Radio. */
module RadioBot {
  import opened Wrappers
  import opened Radio

  /** The bot's fields, updated in place by its handlers and control methods. */
  class SriRadioBot {
    const config: Config
    var connection: Option<Connection>
    var isPlaying: bool
    var shouldAutoPlay: bool
    var playNextTimeout: Option<int>
    var output: Output
    var idleOnceHooks: nat
    var timers: multiset<Timer>

    function Model(): Session
      reads this
    {
      Session(connection, isPlaying, shouldAutoPlay, playNextTimeout, output, idleOnceHooks, timers)
    }

    constructor (config: Config)
      ensures this.config == config && Model() == Initial()
    {
      this.config := config;
      connection := None;
      isPlaying := false;
      playNextTimeout := None;
      shouldAutoPlay := true;
      output := Silent;
      idleOnceHooks := 0;
      timers := multiset{};
    }

    method PlayNext(f: Fetch)
      modifies this
      ensures Model() == Radio.PlayNext(old(Model()), f)
    {
      if playNextTimeout.Some? {
        playNextTimeout := None;
      }
      match f
      case Track(t) =>
        output := Music(t);
        isPlaying := true;
      case NoTrack =>
        playNextTimeout := Some(RetryEmptyDelay);
      case PlayFailed =>
        playNextTimeout := Some(RetryErrorDelay);
    }

    method OnIdle(f: Fetch)
      modifies this
      ensures Model() == Radio.OnIdle(old(Model()), f)
    {
      output := Silent;
      timers := AddResumes(timers, idleOnceHooks);
      idleOnceHooks := 0;
      if shouldAutoPlay {
        PlayNext(f);
      }
    }

    method OnPlayerError(f: Fetch)
      modifies this
      ensures Model() == Radio.OnPlayerError(old(Model()), f)
    {
      PlayNext(f);
    }

    method SkipToNext()
      modifies this
      ensures Model() == Radio.SkipToNext(old(Model()))
    {
      shouldAutoPlay := true;
      output := StopOutput(output);
    }

    method StopPlayback()
      modifies this
      ensures Model() == Radio.StopPlayback(old(Model()))
    {
      shouldAutoPlay := false;
      output := StopOutput(output);
      isPlaying := false;
      if playNextTimeout.Some? {
        playNextTimeout := None;
      }
    }

    method ResumePlayback(f: Fetch)
      modifies this
      ensures Model() == Radio.ResumePlayback(old(Model()), f)
    {
      shouldAutoPlay := true;
      PlayNext(f);
    }

    method FireRetry(f: Fetch)
      requires playNextTimeout.Some?
      modifies this
      ensures Model() == Radio.FireRetry(old(Model()), f)
    {
      PlayNext(f);
    }

    method ScheduleDjBreak()
      modifies this
      ensures Model() == Radio.ScheduleDjBreak(config, old(Model()))
    {
      timers := timers + multiset{DjBreakTimer(config)};
    }

    method PlayDjBreak(audio: BreakAudio, f: Fetch)
      modifies this
      ensures Model() == Radio.PlayDjBreak(old(Model()), audio, f)
    {
      if audio == Clip {
        output := DjClip;
        idleOnceHooks := idleOnceHooks + 1;
      } else {
        PlayNext(f);
      }
    }

    method FireDjBreak(audio: BreakAudio, f: Fetch)
      requires DjBreakTimer(config) in timers
      modifies this
      ensures Model() == Radio.FireDjBreak(config, old(Model()), audio, f)
    {
      timers := timers - multiset{DjBreakTimer(config)};
      PlayDjBreak(audio, f);
      ScheduleDjBreak();
    }

    method FireDjResume(f: Fetch)
      requires Timer(DjResume, DjResumeDelay) in timers
      modifies this
      ensures Model() == Radio.FireDjResume(old(Model()), f)
    {
      timers := timers - multiset{Timer(DjResume, DjResumeDelay)};
      PlayNext(f);
    }

    method JoinChannel(ch: Channel)
      modifies this
      ensures Model() == Radio.JoinChannel(old(Model()), ch)
    {
      connection := Some(Connection(ch.id, Signalling));
    }

    method StartRadio(f: Fetch)
      modifies this
      ensures Model() == Radio.StartRadio(config, old(Model()), f)
    {
      PlayNext(f);
      ScheduleDjBreak();
    }

    method AutoJoinAndPlay(guild: Option<Guild>, f: Fetch)
      modifies this
      ensures Model() == Radio.AutoJoinAndPlay(config, old(Model()), guild, f)
    {
      if guild.None? {
        return;
      }
      var channel := ChooseChannel(config.voiceChannelId, guild.value.channels);
      if channel.Some? {
        JoinChannel(channel.value);
        StartRadio(f);
      }
    }

    method OnDisconnected()
      requires connection.Some?
      modifies this
      ensures Model() == Radio.OnDisconnected(old(Model()))
    {
      connection := Some(connection.value.(status := Disconnected));
      timers := timers + multiset{Timer(GraceCheck, GraceDelay)};
    }

    method OnDestroyed()
      requires connection.Some?
      modifies this
      ensures Model() == Radio.OnDestroyed(old(Model()))
    {
      connection := Some(connection.value.(status := Destroyed));
      timers := timers + multiset{Timer(AutoJoin, DestroyedRejoinDelay)};
    }

    method OnReady()
      requires connection.Some?
      modifies this
      ensures Model() == Radio.OnReady(old(Model()))
    {
      connection := Some(connection.value.(status := Ready));
    }

    method FireGraceCheck(rejoinThrows: bool)
      requires Timer(GraceCheck, GraceDelay) in timers && connection.Some?
      modifies this
      ensures Model() == Radio.FireGraceCheck(old(Model()), rejoinThrows)
    {
      timers := timers - multiset{Timer(GraceCheck, GraceDelay)};
      if connection.value.status == Disconnected {
        if !rejoinThrows {
          connection := Some(connection.value.(status := Signalling));
        } else {
          OnDestroyed();
          timers := timers + multiset{Timer(AutoJoin, FailedRejoinDelay)};
        }
      }
    }

    method FireAutoJoin(t: Timer, guild: Option<Guild>, f: Fetch)
      requires t in timers && t.event == AutoJoin
      modifies this
      ensures Model() == Radio.FireAutoJoin(config, old(Model()), t, guild, f)
    {
      timers := timers - multiset{t};
      AutoJoinAndPlay(guild, f);
    }
  }
}
