/** The sound manager's request-routing layer: enabling sound and music,
    starting music, building the digitized-sound tables from the page file,
    routing a play request to the digitized (PCM) or the AdLib player, and
    the volume setters. The audio mixer itself is an external collaborator:
    every call into it is recorded, in order, in a trace. */
module SoundManager {
  import opened Base
  import opened PageManager

  /** The kind of object a sound comes from. */
  datatype ActorType = Actor | Door | Wall | OtherType(code: int)

  /** The channel class of a sound; voice is the one the wrappers name. */
  datatype ActorChannel = Voice | OtherChannel(code: int)

  /** One call into the audio mixer. */
  datatype MixerCall =
    | Initialize(sampleRate: int)
    | Uninitialize
    | StopAllSfx
    | StopMusic
    | PlayAdlibMusic(musicIndex: int, music: Option<nat>, musicLength: Uint16)
    | PlayPcmSound(digiIndex: int, priority: int, data: nat, length: int,
                   actorIndex: int, actorType: ActorType, channel: ActorChannel)
    | PlayAdlibSound(soundIndex: int, priority: int, data: nat, size: int,
                     actorIndex: int, actorType: ActorType, channel: ActorChannel)
    | SetSfxGain(volume: int, maxVolume: int)      // the mixer receives volume / maxVolume
    | SetMusicGain(volume: int, maxVolume: int)

  /** The mixer's output rate when audio is present. */
  const SampleRate: nat := 44100

  /** The audio asset tables of the cache manager that this layer reads:
      `segs` is audiosegs (a segment is absent when not cached), `starts` is
      audiostarts, then the first PC-speaker sound, AdLib sound and music
      chunk, the number of sounds and the number of music tracks. */
  datatype AudioAssets = AudioAssets(
    segs: seq<Option<seq<Byte>>>,
    starts: seq<int>,
    startPCSounds: nat,
    startALSounds: nat,
    startMusic: nat,
    lastSound: nat,
    lastMusic: nat)

  /** A sound table at `base` lies within the segments, and every cached sound
      in it is long enough to hold its header (32-bit length, 16-bit priority). */
  predicate SoundTableFits(a: AudioAssets, base: nat)
  {
    && base + a.lastSound <= |a.segs|
    && forall k :: base <= k < base + a.lastSound && a.segs[k].Some? ==> |a.segs[k].value| >= 6
  }

  predicate AssetsValid(a: AudioAssets)
  {
    && SoundTableFits(a, a.startPCSounds)
    && SoundTableFits(a, a.startALSounds)
    && a.startALSounds + a.lastSound < |a.starts|
    && a.startMusic + a.lastMusic <= |a.segs|
    && forall k :: a.startMusic <= k < a.startMusic + a.lastMusic && a.segs[k].Some? ==> |a.segs[k].value| >= 2
  }

  /** The priority of a sound: the little-endian word after its 32-bit length. */
  function Priority(sound: seq<Byte>): Uint16
    requires |sound| >= 6
  {
    Le16(sound, 4)
  }

  /** DigiMap's entries are -1 (no digitized variant) or name a (page, length)
      pair of DigiList. */
  predicate DigiMapInRange(digiMap: seq<int>, digiList: seq<Uint16>)
  {
    forall k :: 0 <= k < |digiMap| ==> digiMap[k] == -1 || (0 <= digiMap[k] && 2 * digiMap[k] + 1 < |digiList|)
  }

  /** Everything a play request reads. */
  datatype PlayContext = PlayContext(
    soundEnabled: bool,
    soundTable: Option<nat>,
    assets: AudioAssets,
    digiMap: seq<int>,
    digiList: seq<Uint16>,
    pages: PmState)

  predicate ContextValid(c: PlayContext)
  {
    && AssetsValid(c.assets)
    && |c.digiMap| == c.assets.lastSound
    && (c.soundTable.Some? ==> c.soundTable.value in {c.assets.startPCSounds, c.assets.startALSounds})
    && Consistent(c.pages)
    && DigiMapInRange(c.digiMap, c.digiList)
  }

  /** The emitter's slot as the mixer sees it: -1 without an emitter, the slot
      for an actor or a door, and None (play nothing) for any other kind. */
  function ResolveEmitter(emitter: Option<nat>, kind: ActorType): (r: Option<int>)
    ensures emitter.None? ==> r == Some(-1)
    ensures emitter.Some? ==> (r.Some? <==> kind.Actor? || kind.Door?)
    ensures emitter.Some? && r.Some? ==> r.value == emitter.value
  {
    match emitter
    case None => Some(-1)
    case Some(slot) => if kind.Actor? || kind.Door? then Some(slot) else None
  }

  /** The mixer calls sd_play_sound makes, or the page manager error that
      aborts it while fetching the digitized page. */
  function PlayCalls(c: PlayContext, soundIndex: int, emitter: Option<nat>, kind: ActorType,
                     channel: ActorChannel): (r: Result<seq<MixerCall>, PmError>)
    requires ContextValid(c) && soundIndex < c.assets.lastSound
    ensures soundIndex < 0 || c.soundTable.None? ==> r == Ok([])
    ensures r.Ok? ==> |r.value| <= 1
  {
    if soundIndex < 0 || c.soundTable.None? then Ok([])
    else
      match ResolveEmitter(emitter, kind)
      case None => Ok([])
      case Some(actorIndex) =>
        var sound := c.assets.segs[c.soundTable.value + soundIndex];
        if sound.None? then Ok([])
        else
          var priority := Priority(sound.value);
          var digiIndex := c.digiMap[soundIndex];
          if digiIndex != -1 then
            var page := c.digiList[2 * digiIndex];
            var length := c.digiList[2 * digiIndex + 1];
            match GetSoundPage(c.pages, page)
            case Err(e) => Err(e)
            case Ok(data) => Ok([PlayPcmSound(digiIndex, priority, data, length, actorIndex, kind, channel)])
          else if !c.soundEnabled then Ok([])
          else
            var at := c.assets.startALSounds + soundIndex;
            Ok([PlayAdlibSound(soundIndex, priority, c.soundTable.value + soundIndex,
                               c.assets.starts[at + 1] - c.assets.starts[at], actorIndex, kind, channel)])
  }

  /** A request makes no mixer call when the table has no entry for the sound,
      or when an emitter of a kind other than actor or door is given. */
  lemma SilentRequests(c: PlayContext, soundIndex: int, emitter: Option<nat>, kind: ActorType,
                       channel: ActorChannel)
    requires ContextValid(c) && 0 <= soundIndex < c.assets.lastSound && c.soundTable.Some?
    requires c.assets.segs[c.soundTable.value + soundIndex].None?
             || (emitter.Some? && !kind.Actor? && !kind.Door?)
    ensures PlayCalls(c, soundIndex, emitter, kind, channel) == Ok([])
  {
  }

  /** A sound with a digitized variant is played through the PCM player with
      DigiList's page and length, the page fetched as a sound page, and the
      sound's own priority, whether or not sound effects are enabled. */
  lemma DigitizedRouting(c: PlayContext, soundIndex: int, emitter: Option<nat>, kind: ActorType,
                         channel: ActorChannel)
    requires ContextValid(c) && 0 <= soundIndex < c.assets.lastSound && c.soundTable.Some?
    requires c.digiMap[soundIndex] != -1
    requires c.assets.segs[c.soundTable.value + soundIndex].Some?
    requires ResolveEmitter(emitter, kind).Some?
    ensures var d := c.digiMap[soundIndex];
      var page := GetSoundPage(c.pages, c.digiList[2 * d]);
      var r := PlayCalls(c, soundIndex, emitter, kind, channel);
      && (page.Err? ==> r == Err(page.error))
      && (page.Ok? ==>
            && r.Ok? && |r.value| == 1 && r.value[0].PlayPcmSound?
            && r.value[0].digiIndex == d
            && r.value[0].data == page.value
            && r.value[0].length == c.digiList[2 * d + 1]
            && r.value[0].priority == Priority(c.assets.segs[c.soundTable.value + soundIndex].value)
            && r.value[0].actorIndex == ResolveEmitter(emitter, kind).value
            && r.value[0].actorType == kind && r.value[0].channel == channel)
    ensures PlayCalls(c.(soundEnabled := true), soundIndex, emitter, kind, channel)
            == PlayCalls(c.(soundEnabled := false), soundIndex, emitter, kind, channel)
  {
  }

  /** An AdLib call happens only for a sound without a digitized variant while
      sound effects are enabled (with effects off such a sound makes no call); its size is the distance between the sound's
      start and the next start in audiostarts. Conversely, such a sound,
      cached and from an emitter that resolves, is sent to the AdLib player
      with its priority, its segment, the emitter's slot, kind and channel. */
  lemma AdlibRouting(c: PlayContext, soundIndex: int, emitter: Option<nat>, kind: ActorType,
                     channel: ActorChannel)
    requires ContextValid(c) && soundIndex < c.assets.lastSound
    ensures var r := PlayCalls(c, soundIndex, emitter, kind, channel);
      r.Ok? && r.value != [] && r.value[0].PlayAdlibSound? ==>
        var at := c.assets.startALSounds + soundIndex;
        && c.soundEnabled
        && 0 <= soundIndex
        && c.digiMap[soundIndex] == -1
        && r.value[0].soundIndex == soundIndex
        && r.value[0].size == c.assets.starts[at + 1] - c.assets.starts[at]
    ensures !c.soundEnabled ==>
      var r := PlayCalls(c, soundIndex, emitter, kind, channel);
      r.Ok? ==> forall call :: call in r.value ==> call.PlayPcmSound?
    ensures && 0 <= soundIndex && c.soundTable.Some? && c.digiMap[soundIndex] == -1
            && !c.soundEnabled ==>
      PlayCalls(c, soundIndex, emitter, kind, channel) == Ok([])
    ensures && 0 <= soundIndex && c.soundTable.Some? && c.soundEnabled
            && c.digiMap[soundIndex] == -1
            && c.assets.segs[c.soundTable.value + soundIndex].Some?
            && ResolveEmitter(emitter, kind).Some? ==>
      var at := c.assets.startALSounds + soundIndex;
      PlayCalls(c, soundIndex, emitter, kind, channel) ==
        Ok([PlayAdlibSound(soundIndex, Priority(c.assets.segs[c.soundTable.value + soundIndex].value),
                           c.soundTable.value + soundIndex, c.assets.starts[at + 1] - c.assets.starts[at],
                           ResolveEmitter(emitter, kind).value, kind, channel)])
  {
  }

  /** Every call a request makes names the emitter's slot, or -1 without one. */
  lemma EmitterSlot(c: PlayContext, soundIndex: int, emitter: Option<nat>, kind: ActorType,
                    channel: ActorChannel)
    requires ContextValid(c) && soundIndex < c.assets.lastSound
    ensures var r := PlayCalls(c, soundIndex, emitter, kind, channel);
      r.Ok? ==> forall call :: call in r.value ==>
        (call.PlayPcmSound? || call.PlayAdlibSound?)
        && call.actorIndex == (if emitter.None? then -1 else emitter.value)
        && (call.actorIndex == -1 <==> emitter.None?)
  {
  }

  /** Wall sounds come from no emitter, with kind wall, on the voice channel;
      door sounds come from the door, on the voice channel. */
  lemma WrapperArguments(c: PlayContext, soundIndex: int, door: nat)
    requires ContextValid(c) && soundIndex < c.assets.lastSound
    ensures var r := PlayCalls(c, soundIndex, None, Wall, Voice);
      r.Ok? ==> forall call :: call in r.value ==>
        call.actorIndex == -1 && call.actorType == Wall && call.channel == Voice
    ensures var r := PlayCalls(c, soundIndex, Some(door), Door, Voice);
      r.Ok? ==> forall call :: call in r.value ==>
        call.actorIndex == door && call.actorType == Door && call.channel == Voice
  {
  }

  /** The volume after sd_set_*_volume's two guards. */
  function ClampVolume(volume: int, minVolume: int, maxVolume: int): (r: int)
    ensures minVolume <= maxVolume ==> minVolume <= r <= maxVolume
    ensures minVolume <= volume <= maxVolume ==> r == volume
    ensures minVolume <= maxVolume && volume < minVolume ==> r == minVolume
    ensures volume > maxVolume ==> r == maxVolume
  {
    var v := if volume < minVolume then minVolume else volume;
    if v > maxVolume then maxVolume else v
  }

  /** A volume outside the range behaves exactly like the nearest bound, and
      clamping twice is clamping once. */
  lemma ClampNearestBound(volume: int, minVolume: int, maxVolume: int)
    requires minVolume <= maxVolume
    ensures volume < minVolume ==> ClampVolume(volume, minVolume, maxVolume) == ClampVolume(minVolume, minVolume, maxVolume)
    ensures volume > maxVolume ==> ClampVolume(volume, minVolume, maxVolume) == ClampVolume(maxVolume, minVolume, maxVolume)
    ensures ClampVolume(ClampVolume(volume, minVolume, maxVolume), minVolume, maxVolume) == ClampVolume(volume, minVolume, maxVolume)
  {
  }

  // ---------------------------------------------------------------------
  // The digitized-sound table: the last chunk of the page file holds
  // (page, length) pairs of little-endian words, one per digitized sound.

  /** At most one page of pairs is scanned. */
  const MaxDigiSounds: nat := PMPageSize / 4

  /** The length word of pair `i` of the table at `off`. */
  function DigiLength(buf: seq<Byte>, off: nat, i: nat): Uint16
    requires off + 4 * i + 4 <= |buf|
  {
    Le16(buf, off + 4 * i + 2)
  }

  /** The page reached after the first `i` sounds, starting at the first sound
      page and advancing by each length rounded up to whole pages. */
  function PageAfter(buf: seq<Byte>, off: nat, soundStart: int, i: nat): int
    requires off + 4 * i <= |buf|
  {
    if i == 0 then soundStart
    else PageAfter(buf, off, soundStart, i - 1) + (DigiLength(buf, off, i - 1) + (PMPageSize - 1)) / PMPageSize
  }

  /** `count` is the number of digitized sounds SDL_SetupDigi finds: the first
      index at which the running page reaches the last chunk, or a page's
      worth of pairs. */
  predicate IsDigiCount(buf: seq<Byte>, off: nat, soundStart: int, chunks: int, count: nat)
    requires off + PMPageSize <= |buf|
  {
    && count <= MaxDigiSounds
    && (forall j :: 0 <= j < count ==> PageAfter(buf, off, soundStart, j) < chunks - 1)
    && (count < MaxDigiSounds ==> PageAfter(buf, off, soundStart, count) >= chunks - 1)
  }

  /** The count is determined by the table. */
  lemma DigiCountUnique(buf: seq<Byte>, off: nat, soundStart: int, chunks: int, c1: nat, c2: nat)
    requires off + PMPageSize <= |buf|
    requires IsDigiCount(buf, off, soundStart, chunks, c1) && IsDigiCount(buf, off, soundStart, chunks, c2)
    ensures c1 == c2
  {
  }

  /** The counting loop of SDL_SetupDigi. */
  method CountDigiSounds(buf: seq<Byte>, off: nat, soundStart: int, chunks: int) returns (count: nat)
    requires off + PMPageSize <= |buf|
    ensures IsDigiCount(buf, off, soundStart, chunks, count)
  {
    var pg := soundStart;
    var i := 0;
    while i < MaxDigiSounds
      invariant 0 <= i <= MaxDigiSounds
      invariant pg == PageAfter(buf, off, soundStart, i)
      invariant forall j :: 0 <= j < i ==> PageAfter(buf, off, soundStart, j) < chunks - 1
    {
      if pg >= chunks - 1 {
        break;
      }
      pg := pg + (DigiLength(buf, off, i) + (PMPageSize - 1)) / PMPageSize;
      i := i + 1;
    }
    count := i;
  }

  /** The first `n` little-endian words of the table at `off`, in host order. */
  function DigiWords(buf: seq<Byte>, off: nat, n: nat): (r: seq<Uint16>)
    requires off + 2 * n <= |buf|
    ensures |r| == n && forall k :: 0 <= k < n ==> r[k] == Le16(buf, off + 2 * k)
  {
    seq(n, k requires 0 <= k < n => Le16(buf, off + 2 * k))
  }

  /** Pair `j` of DigiList holds the page and the length the count was made with. */
  lemma DigiListPairs(buf: seq<Byte>, off: nat, count: nat, j: nat)
    requires off + 4 * count <= |buf| && j < count
    ensures DigiWords(buf, off, 2 * count)[2 * j + 1] == DigiLength(buf, off, j)
    ensures DigiWords(buf, off, 2 * count)[2 * j] == Le16(buf, off + 4 * j)
  {
  }

  /** SDL_SetupDigi reads the last chunk of the page file; this says the chunk
      starts within the file, so a page of pairs lies inside the buffer. */
  predicate DigiTableInBuffer(s: PmState)
  {
    && Consistent(s)
    && s.chunksInFile >= 1
    && var p := GetPage(s, s.chunksInFile - 1);
       p.Ok? ==> p.value + PMPageSize <= |s.rawData.value|
  }

  /** What SDL_SetupDigi leaves behind: DigiList holds the counted pairs and
      every DigiMap entry is -1. */
  predicate DigiTablesBuilt(s: PmState, digiList: seq<Uint16>, digiMap: seq<int>)
    requires DigiTableInBuffer(s)
  {
    var p := GetPage(s, s.chunksInFile - 1);
    && p.Ok?
    && |digiList| % 2 == 0
    && IsDigiCount(s.rawData.value, p.value, s.soundStart, s.chunksInFile, |digiList| / 2)
    && digiList == DigiWords(s.rawData.value, p.value, |digiList|)
    && forall k :: 0 <= k < |digiMap| ==> digiMap[k] == -1
  }

  /** The mutable variables of the sound manager (the mixer trace aside). */
  datatype SdVars = SdVars(
    hasAudio: bool,
    soundEnabled: bool,
    musicEnabled: bool,
    started: bool,
    soundTable: Option<nat>,
    digiList: seq<Uint16>,
    ssNoCheck: bool,
    alNoCheck: bool,
    sbNoCheck: bool,
    sbNoProCheck: bool,
    sqActive: bool,
    sqHack: Option<nat>,
    sqHackLen: Uint16,
    sqPlayedOnce: bool,
    musicIndex: int,
    musicReleased: bool)

  /** A play request ended with `r`, taking the trace from `before` to `after`
      as `calls` says. */
  ghost predicate Played(before: seq<MixerCall>, after: seq<MixerCall>, r: Outcome<PmError>,
                         calls: Result<seq<MixerCall>, PmError>)
  {
    match calls
    case Err(e) => r == Fail(e) && after == before
    case Ok(cs) => r == Pass && after == before + cs
  }

  /** The sound manager's module variables. */
  class SoundSystem {
    const pm: PageStore
    const digiMap: array<int>
    const assets: AudioAssets
    /** The player's slot in the actor list. */
    const playerSlot: nat
    const minVolume: int
    const maxVolume: int

    var hasAudio: bool
    var soundEnabled: bool
    var musicEnabled: bool
    var started: bool
    /** SoundTable: the index in audiosegs where the current sound table starts. */
    var soundTable: Option<nat>
    var digiList: seq<Uint16>
    var ssNoCheck: bool
    var alNoCheck: bool
    var sbNoCheck: bool
    var sbNoProCheck: bool
    var sqActive: bool
    /** sqHack: the index in audiosegs of the current music. */
    var sqHack: Option<nat>
    var sqHackLen: Uint16
    var sqPlayedOnce: bool
    var musicIndex: int
    /** Set once SD_Shutdown has freed the music segments. */
    var musicReleased: bool
    /** The calls made into the mixer so far. */
    ghost var trace: seq<MixerCall>

    function Vars(): SdVars
      reads this
    {
      SdVars(hasAudio, soundEnabled, musicEnabled, started, soundTable, digiList,
             ssNoCheck, alNoCheck, sbNoCheck, sbNoProCheck,
             sqActive, sqHack, sqHackLen, sqPlayedOnce, musicIndex, musicReleased)
    }

    ghost predicate Valid()
      reads this, pm, digiMap
    {
      && pm.Valid()
      && AssetsValid(assets)
      && digiMap.Length == assets.lastSound
      && (soundTable.Some? ==> soundTable.value in {assets.startPCSounds, assets.startALSounds})
      && (soundEnabled ==> hasAudio && soundTable == Some(assets.startALSounds))
    }

    function Context(): PlayContext
      reads this, pm, digiMap
    {
      PlayContext(soundEnabled, soundTable, assets, digiMap[..], digiList, pm.State())
    }

    /** The static initial values of the module variables. */
    constructor (pm: PageStore, digiMap: array<int>, assets: AudioAssets, playerSlot: nat,
                 minVolume: int, maxVolume: int)
      requires pm.Valid() && AssetsValid(assets) && digiMap.Length == assets.lastSound
      ensures Valid() && trace == []
      ensures this.pm == pm && this.digiMap == digiMap && this.assets == assets
      ensures this.playerSlot == playerSlot && this.minVolume == minVolume && this.maxVolume == maxVolume
      ensures Vars() == SdVars(false, false, false, false, None, [], false, false, false, false,
                               false, None, 0, false, -1, false)
    {
      this.pm, this.digiMap, this.assets := pm, digiMap, assets;
      this.playerSlot, this.minVolume, this.maxVolume := playerSlot, minVolume, maxVolume;
      hasAudio, soundEnabled, musicEnabled, started := false, false, false, false;
      soundTable, digiList := None, [];
      ssNoCheck, alNoCheck, sbNoCheck, sbNoProCheck := false, false, false, false;
      sqActive, sqHack, sqHackLen, sqPlayedOnce := false, None, 0, false;
      musicIndex, musicReleased := -1, false;
      trace := [];
    }

    /** SD_StopSound. */
    method StopSound()
      modifies this
      ensures Vars() == old(Vars()) && trace == old(trace) + [StopAllSfx]
    {
      trace := trace + [StopAllSfx];
    }

    /** SDL_ShutDevice. */
    method ShutDevice()
      modifies this
      ensures Vars() == old(Vars()).(soundEnabled := false) && trace == old(trace)
    {
      soundEnabled := false;
    }

    /** SD_EnableSound: sound effects stay off without audio; the sound table
        is repointed only when the flag changes. */
    method EnableSound(enable: bool) returns (r: bool)
      requires Valid()
      modifies this
      ensures Valid()
      ensures r == (enable && old(hasAudio)) && soundEnabled == r
      ensures trace == old(trace) + [StopAllSfx]
      ensures Vars() == if old(soundEnabled) != r
                        then old(Vars()).(soundEnabled := r,
                                          soundTable := Some(if r then assets.startALSounds else assets.startPCSounds))
                        else old(Vars())
    {
      StopSound();
      var e := enable;
      if e && !hasAudio {
        e := false;
      }
      var tableOffset := if e then assets.startALSounds else assets.startPCSounds;
      if soundEnabled != e {
        ShutDevice();
        soundEnabled := e;
        soundTable := Some(tableOffset);
      }
      r := e;
    }

    /** SD_MusicOn. */
    method MusicOn()
      modifies this
      ensures Vars() == old(Vars()).(sqActive := true)
      ensures trace == old(trace) + [PlayAdlibMusic(musicIndex, sqHack, sqHackLen)]
    {
      sqActive := true;
      trace := trace + [PlayAdlibMusic(musicIndex, sqHack, sqHackLen)];
    }

    /** SD_MusicOff. */
    method MusicOff()
      modifies this
      ensures Vars() == old(Vars()).(sqActive := false) && trace == old(trace) + [StopMusic]
    {
      sqActive := false;
      trace := trace + [StopMusic];
    }

    /** SD_EnableMusic: music is turned off and the flag set as asked. */
    method EnableMusic(enable: bool) returns (r: bool)
      requires Valid()
      modifies this
      ensures Valid() && r == enable
      ensures Vars() == old(Vars()).(sqActive := false, musicEnabled := enable)
      ensures trace == old(trace) + [StopMusic]
    {
      MusicOff();
      musicEnabled := enable;
      r := enable;
    }

    /** SD_StartMusic: the sequencer restarts on track `index` when music is
        enabled; otherwise the track counts as played once. */
    method StartMusic(index: int)
      requires Valid()
      requires musicEnabled ==>
                 0 <= index < assets.lastMusic && !musicReleased && assets.segs[assets.startMusic + index].Some?
      modifies this
      ensures Valid()
      ensures old(musicEnabled) ==>
        var at := assets.startMusic + index;
        var len := ToUint16(Le16(assets.segs[at].value, 0) + 2);
        && Vars() == old(Vars()).(musicIndex := index, sqHack := Some(at), sqHackLen := len,
                                  sqActive := true, sqPlayedOnce := false)
        && trace == old(trace) + [StopMusic, PlayAdlibMusic(index, Some(at), len)]
      ensures !old(musicEnabled) ==>
        && Vars() == old(Vars()).(sqActive := false, sqPlayedOnce := true)
        && trace == old(trace) + [StopMusic]
    {
      MusicOff();
      sqPlayedOnce := false;
      if musicEnabled {
        PlayTrack(index);
      } else {
        sqPlayedOnce := true;
      }
    }

    /** The music-enabled branch of SD_StartMusic: the track's segment
        becomes the sequencer's data, its length the first little-endian
        word plus 2 (cut to 16 bits), and the sequencer is turned on. */
    method PlayTrack(index: int)
      requires Valid() && musicEnabled
      requires 0 <= index < assets.lastMusic && !musicReleased && assets.segs[assets.startMusic + index].Some?
      modifies this
      ensures Valid()
      ensures var at := assets.startMusic + index;
        var len := ToUint16(Le16(assets.segs[at].value, 0) + 2);
        && Vars() == old(Vars()).(musicIndex := index, sqHack := Some(at), sqHackLen := len, sqActive := true)
        && trace == old(trace) + [PlayAdlibMusic(index, Some(at), len)]
    {
      musicIndex := index;
      var at := assets.startMusic + index;
      var musicData := assets.segs[at].value;
      var length := Le16(musicData, 0) + 2;
      sqHack := Some(at);
      sqHackLen := ToUint16(length);
      MusicOn();
    }

    /** SD_SoundPlaying: asks the mixer only while sound effects are enabled. */
    method SoundPlaying(anySfxPlaying: bool) returns (r: bool)
      ensures r == (soundEnabled && anySfxPlaying)
    {
      if soundEnabled {
        r := anySfxPlaying;
      } else {
        r := false;
      }
    }

    /** SDL_SetupDigi: counts and copies the digitized-sound table from the
        last chunk of the page file and clears DigiMap. */
    method SetupDigi() returns (r: Outcome<PmError>)
      requires Valid() && DigiTableInBuffer(pm.State())
      modifies this, digiMap
      ensures Valid() && trace == old(trace)
      ensures var p := GetPage(pm.State(), pm.chunksInFile - 1);
        && (p.Err? ==> r == Fail(p.error) && Vars() == old(Vars()) && digiMap[..] == old(digiMap[..]))
        && (p.Ok? ==> r == Pass && Vars() == old(Vars()).(digiList := digiList)
                      && DigiTablesBuilt(pm.State(), digiList, digiMap[..]))
    {
      var p := GetPage(pm.State(), pm.chunksInFile - 1);
      if p.Err? {
        return Fail(p.error);
      }
      var buf := pm.rawData.value;
      var count := CountDigiSounds(buf, p.value, pm.soundStart, pm.chunksInFile);
      var src := GetPage(pm.State(), pm.chunksInFile - 1);
      digiList := DigiWords(buf, src.value, count * 2);
      var i := 0;
      while i < assets.lastSound
        invariant 0 <= i <= assets.lastSound
        invariant forall k :: 0 <= k < i ==> digiMap[k] == -1
        modifies digiMap
      {
        digiMap[i] := -1;
        i := i + 1;
      }
      r := Pass;
    }

    /** The command-line part of SD_Startup: `parm` is the index of the
        option found (-1 for none); at most one probe is switched off. */
    method ResetDetection(parm: int)
      modifies this
      ensures Vars() == old(Vars()).(ssNoCheck := false, alNoCheck := parm == 0,
                                     sbNoCheck := parm == 1, sbNoProCheck := parm == 2)
      ensures trace == old(trace)
    {
      ssNoCheck, alNoCheck, sbNoCheck, sbNoProCheck := false, false, false, false;
      if parm == 0 {
        alNoCheck := true;         // the AdLib probe is skipped
      } else if parm == 1 {
        sbNoCheck := true;         // the SoundBlaster probe is skipped
      } else if parm == 2 {
        sbNoProCheck := true;      // the SoundBlaster Pro probe is skipped
      }
    }

    /** The detection part of SD_Startup: the mixer is started at the fixed
        rate when audio was detected, and left uninitialised otherwise. */
    method StartMixer(detected: bool)
      requires Valid() && !soundEnabled
      modifies this
      ensures Valid() && Vars() == old(Vars()).(hasAudio := detected)
      ensures trace == old(trace) + [if detected then Initialize(SampleRate) else Uninitialize]
    {
      hasAudio := detected;
      if hasAudio {
        trace := trace + [Initialize(SampleRate)];
      } else {
        trace := trace + [Uninitialize];
      }
    }

    /** The device part of SD_Startup: the detection flags are reset (`parm`
        is the index of the command-line option found, -1 for none), sound
        and music are turned off and the mixer is started when audio was
        detected. */
    method ResetDevices(parm: int, detected: bool)
      requires Valid()
      modifies this
      ensures Valid()
      ensures trace == old(trace) + [StopAllSfx, StopMusic, if detected then Initialize(SampleRate) else Uninitialize]
      ensures Vars() == old(Vars()).(
                ssNoCheck := false, alNoCheck := parm == 0, sbNoCheck := parm == 1, sbNoProCheck := parm == 2,
                soundEnabled := false, musicEnabled := false, sqActive := false, hasAudio := detected,
                soundTable := if old(soundEnabled) then Some(assets.startPCSounds) else old(soundTable))
    {
      ResetDetection(parm);
      var _ := EnableSound(false);
      var _ := EnableMusic(false);
      StartMixer(detected);
    }

    /** SD_Startup: does nothing when already started; otherwise resets the
        devices and builds the digitized-sound tables. A page lookup that
        fails (where the C code quits) leaves the system not started. */
    method Startup(parm: int, detected: bool) returns (r: Outcome<PmError>)
      requires Valid()
      requires !started ==> DigiTableInBuffer(pm.State())
      modifies this, digiMap
      ensures Valid()
      ensures old(started) ==>
        r == Pass && Vars() == old(Vars()) && trace == old(trace) && digiMap[..] == old(digiMap[..])
      ensures !old(started) ==>
        && trace == old(trace) + [StopAllSfx, StopMusic, if detected then Initialize(SampleRate) else Uninitialize]
        && Vars() == old(Vars()).(
             ssNoCheck := false, alNoCheck := parm == 0, sbNoCheck := parm == 1, sbNoProCheck := parm == 2,
             soundEnabled := false, musicEnabled := false, sqActive := false, hasAudio := detected,
             soundTable := if old(soundEnabled) then Some(assets.startPCSounds) else old(soundTable),
             started := r.Pass?, digiList := digiList)
        && var p := GetPage(pm.State(), pm.chunksInFile - 1);
           && (p.Err? ==> r == Fail(p.error) && digiList == old(digiList) && digiMap[..] == old(digiMap[..]))
           && (p.Ok? ==> r == Pass && DigiTablesBuilt(pm.State(), digiList, digiMap[..]))
    {
      if started {
        return Pass;
      }
      ResetDevices(parm, detected);
      r := SetupDigi();
      if r.Pass? {
        started := true;
      }
    }

    /** SD_Shutdown: does nothing unless started; stops the mixer and frees
        the music segments. */
    method Shutdown()
      requires Valid()
      modifies this
      ensures Valid()
      ensures old(started) ==> Vars() == old(Vars()).(started := false, musicReleased := true)
                               && trace == old(trace) + [Uninitialize]
      ensures !old(started) ==> Vars() == old(Vars()) && trace == old(trace)
    {
      if !started {
        return;
      }
      trace := trace + [Uninitialize];
      musicReleased := true;
      started := false;
    }

    /** sd_play_sound. */
    method PlaySound(soundIndex: int, emitter: Option<nat>, kind: ActorType, channel: ActorChannel)
      returns (r: Outcome<PmError>)
      requires Valid() && soundIndex < assets.lastSound && DigiMapInRange(digiMap[..], digiList)
      modifies this
      ensures Valid() && Vars() == old(Vars())
      ensures Played(old(trace), trace, r, PlayCalls(old(Context()), soundIndex, emitter, kind, channel))
    {
      if soundIndex < 0 {
        return Pass;
      }
      if soundTable.None? {
        return Pass;
      }
      var actorIndex: int := -1;
      if emitter.Some? {
        match kind
        case Actor =>
          actorIndex := emitter.value;
        case Door =>
          actorIndex := emitter.value;
        case _ =>
          return Pass;
      }
      var sound := assets.segs[soundTable.value + soundIndex];
      if sound.None? {
        return Pass;
      }
      var priority := Le16(sound.value, 4);
      var digiIndex := digiMap[soundIndex];
      if digiIndex != -1 {
        var digiPage := digiList[2 * digiIndex];
        var digiLength := digiList[2 * digiIndex + 1];
        var digiData := GetSoundPage(pm.State(), digiPage);
        if digiData.Err? {
          return Fail(digiData.error);
        }
        trace := trace + [PlayPcmSound(digiIndex, priority, digiData.value, digiLength, actorIndex, kind, channel)];
        return Pass;
      }
      if !soundEnabled {
        return Pass;
      }
      var at := assets.startALSounds + soundIndex;
      var dataSize := assets.starts[at + 1] - assets.starts[at];
      trace := trace + [PlayAdlibSound(soundIndex, priority, soundTable.value + soundIndex, dataSize,
                                       actorIndex, kind, channel)];
      r := Pass;
    }

    /** sd_play_actor_sound: the actor (or none) as an actor emitter. */
    method PlayActorSound(soundIndex: int, actor: Option<nat>, channel: ActorChannel) returns (r: Outcome<PmError>)
      requires Valid() && soundIndex < assets.lastSound && DigiMapInRange(digiMap[..], digiList)
      modifies this
      ensures Valid() && Vars() == old(Vars())
      ensures Played(old(trace), trace, r, PlayCalls(old(Context()), soundIndex, actor, Actor, channel))
    {
      r := PlaySound(soundIndex, actor, Actor, channel);
    }

    /** sd_play_player_sound: the player as an actor emitter. */
    method PlayPlayerSound(soundIndex: int, channel: ActorChannel) returns (r: Outcome<PmError>)
      requires Valid() && soundIndex < assets.lastSound && DigiMapInRange(digiMap[..], digiList)
      modifies this
      ensures Valid() && Vars() == old(Vars())
      ensures Played(old(trace), trace, r, PlayCalls(old(Context()), soundIndex, Some(playerSlot), Actor, channel))
    {
      r := PlaySound(soundIndex, Some(playerSlot), Actor, channel);
    }

    /** sd_play_door_sound: the door (or none) as a door emitter, voice channel. */
    method PlayDoorSound(soundIndex: int, door: Option<nat>) returns (r: Outcome<PmError>)
      requires Valid() && soundIndex < assets.lastSound && DigiMapInRange(digiMap[..], digiList)
      modifies this
      ensures Valid() && Vars() == old(Vars())
      ensures Played(old(trace), trace, r, PlayCalls(old(Context()), soundIndex, door, Door, Voice))
    {
      r := PlaySound(soundIndex, door, Door, Voice);
    }

    /** sd_play_wall_sound: no emitter, kind wall, voice channel. */
    method PlayWallSound(soundIndex: int) returns (r: Outcome<PmError>)
      requires Valid() && soundIndex < assets.lastSound && DigiMapInRange(digiMap[..], digiList)
      modifies this
      ensures Valid() && Vars() == old(Vars())
      ensures Played(old(trace), trace, r, PlayCalls(old(Context()), soundIndex, None, Wall, Voice))
    {
      r := PlaySound(soundIndex, None, Wall, Voice);
    }

    /** sd_set_sfx_volume: the clamped volume is forwarded over the maximum. */
    method SetSfxVolume(volume: int)
      modifies this
      ensures Vars() == old(Vars())
      ensures trace == old(trace) + [SetSfxGain(ClampVolume(volume, minVolume, maxVolume), maxVolume)]
    {
      var v := volume;
      if v < minVolume {
        v := minVolume;
      }
      if v > maxVolume {
        v := maxVolume;
      }
      trace := trace + [SetSfxGain(v, maxVolume)];
    }

    /** sd_set_music_volume: the clamped volume is forwarded over the maximum. */
    method SetMusicVolume(volume: int)
      modifies this
      ensures Vars() == old(Vars())
      ensures trace == old(trace) + [SetMusicGain(ClampVolume(volume, minVolume, maxVolume), maxVolume)]
    {
      var v := volume;
      if v < minVolume {
        v := minVolume;
      }
      if v > maxVolume {
        v := maxVolume;
      }
      trace := trace + [SetMusicGain(v, maxVolume)];
    }
  }
}
