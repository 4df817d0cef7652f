/**
 * The desktop AudioManager (src/main/kotlin/com/peinbol/client/
 * AudioManager.kt) and its AudioSource (AudioSource.kt beside it): one
 * OpenAL buffer per audio id, and the list of playing sources, which
 * `update` prunes of the finished one-shot sounds.
 *
 * OpenAL calls are appended to `trace`, and the names OpenAL hands out come
 * from a counter.  The source state query (AL_SOURCE_STATE) is the
 * `playing` parameter, and the Vorbis decoder the `decode` parameter.
 */
module Audio {
  import opened Wrappers
  import opened Geometry
  import Seqs

  const AL_FORMAT_MONO16 := 0x1101
  const AL_FORMAT_STEREO16 := 0x1103
  /** The format left in place for a channel count OpenAL has no 16-bit format for. */
  const NO_FORMAT := -1
  const GAIN_SCALE := 0.7
  const ROLLOFF_FACTOR := 2.5

  datatype AlCall =
    | DistanceModelExponent
    | GenBuffer(buffer: int) | BufferData(buffer: int, format: int, samples: seq<int>, sampleRate: int)
    | GenSource(source: int) | SourceBuffer(source: int, buffer: int) | SourceLooping(source: int, looping: bool)
    | Play(source: int) | Stop(source: int) | DeleteSource(source: int)
    | ListenerPosition(p: Vec3) | ListenerOrientation(at: Vec3, up: Vec3) | ListenerVelocity(v: Vec3)
    | SourcePosition(source: int, p: Vec3) | SourceGain(source: int, gain: real) | SourcePitch(source: int, pitch: real)
    | SourceRolloff(source: int, factor: real) | SourceMaxDistance(source: int, d: real)
    | SourceReferenceDistance(source: int, d: real)

  /** What the decoder returns for a file: channel count, sample rate and samples. */
  datatype Decoded = Decoded(channels: int, sampleRate: int, samples: seq<int>)

  /** The channel-count rule of createBufferForAudioFile. */
  function FormatFor(channels: int): (format: int)
    ensures format == AL_FORMAT_MONO16 <==> channels == 1
    ensures format == AL_FORMAT_STEREO16 <==> channels == 2
    ensures format == NO_FORMAT <==> channels != 1 && channels != 2
  {
    if channels == 1 then AL_FORMAT_MONO16
    else if channels == 2 then AL_FORMAT_STEREO16
    else NO_FORMAT
  }

  class AudioSource {
    var position: Vec3
    var volume: real
    const audioId: int
    var ratio: real
    var loop: bool
    var pitch: real
    var sourceId: int

    constructor (position: Vec3, volume: real, audioId: int, ratio: real, loop: bool, pitch: real := 1.0)
      ensures this.position == position && this.volume == volume && this.audioId == audioId
      ensures this.ratio == ratio && this.loop == loop && this.pitch == pitch && sourceId == 0
    {
      this.position := position;
      this.volume := volume;
      this.audioId := audioId;
      this.ratio := ratio;
      this.loop := loop;
      this.pitch := pitch;
      sourceId := 0;
    }
  }

  /** A source that update keeps: still playing, or looping. */
  predicate Keeps(s: AudioSource, playing: set<int>)
    reads s
  {
    s.sourceId in playing || s.loop
  }

  /** The sources update keeps, in their order. */
  function Kept(ss: seq<AudioSource>, playing: set<int>): (r: seq<AudioSource>)
    reads ss
    ensures |r| <= |ss|
  {
    if ss == [] then []
    else
      var init := Kept(ss[..|ss| - 1], playing);
      var last := ss[|ss| - 1];
      if Keeps(last, playing) then init + [last] else init
  }

  /** Pruning keeps exactly the sources that are still playing or looping. */
  lemma {:induction false} KeptExactly(ss: seq<AudioSource>, playing: set<int>)
    ensures forall k :: 0 <= k < |Kept(ss, playing)| ==>
      Kept(ss, playing)[k] in ss && Keeps(Kept(ss, playing)[k], playing)
    ensures forall k :: 0 <= k < |ss| && Keeps(ss[k], playing) ==> ss[k] in Kept(ss, playing)
  {
    if ss != [] {
      var init, last := ss[..|ss| - 1], ss[|ss| - 1];
      KeptExactly(init, playing);
      assert ss == init + [last];
      assert forall k :: 0 <= k < |init| ==> ss[k] == init[k];
    }
  }

  /** Pruning keeps order: it distributes over concatenation. */
  lemma {:induction false} KeptAppend(a: seq<AudioSource>, b: seq<AudioSource>, playing: set<int>)
    ensures Kept(a + b, playing) == Kept(a, playing) + Kept(b, playing)
  {
    if b == [] {
      assert a + b == a;
    } else {
      KeptAppend(a, b[..|b| - 1], playing);
      assert (a + b)[..|a + b| - 1] == a + b[..|b| - 1];
    }
  }

  /** Pruning a duplicate-free list leaves it duplicate-free. */
  lemma {:induction false} KeptDistinct(ss: seq<AudioSource>, playing: set<int>)
    requires Seqs.Distinct(ss)
    ensures Seqs.Distinct(Kept(ss, playing))
  {
    if ss != [] {
      var init := ss[..|ss| - 1];
      assert Seqs.Distinct(init) by {
        forall i, j | 0 <= i < j < |init| ensures init[i] != init[j] {
          assert init[i] == ss[i] && init[j] == ss[j];
        }
      }
      KeptDistinct(init, playing);
      var last := ss[|ss| - 1];
      assert last !in init by {
        forall i | 0 <= i < |init| ensures init[i] != last {
          assert init[i] == ss[i];
        }
      }
      if Keeps(last, playing) {
        KeptExactly(init, playing);
        Seqs.AppendDistinct(Kept(init, playing), last);
      }
    }
  }

  /** update's calls for one source: stop and delete a finished one-shot, otherwise refresh its properties. */
  function SourceUpdateCalls(s: AudioSource, playing: set<int>): (r: seq<AlCall>)
    reads s
    ensures !Keeps(s, playing) ==> r == [Stop(s.sourceId), DeleteSource(s.sourceId)]
    ensures Keeps(s, playing) ==> (SourceGain(s.sourceId, s.volume * GAIN_SCALE) in r
      && SourceMaxDistance(s.sourceId, s.ratio) in r && SourceReferenceDistance(s.sourceId, s.ratio) in r)
  {
    var id := s.sourceId;
    if !Keeps(s, playing) then [Stop(id), DeleteSource(id)]
    else
      [SourcePosition(id, s.position), SourceGain(id, s.volume * GAIN_SCALE), SourcePitch(id, s.pitch),
       SourceRolloff(id, ROLLOFF_FACTOR), SourceMaxDistance(id, s.ratio), SourceReferenceDistance(id, s.ratio)]
  }

  function UpdateCalls(ss: seq<AudioSource>, playing: set<int>): seq<AlCall>
    reads ss
  {
    if ss == [] then []
    else UpdateCalls(ss[..|ss| - 1], playing) + SourceUpdateCalls(ss[|ss| - 1], playing)
  }

  /** One more source in the pass: its calls follow, and it is kept or not. */
  lemma UpdateStep(all: seq<AudioSource>, i: nat, playing: set<int>)
    requires i < |all|
    ensures Keeps(all[i], playing) ==> Kept(all[..i + 1], playing) == Kept(all[..i], playing) + [all[i]]
    ensures !Keeps(all[i], playing) ==> Kept(all[..i + 1], playing) == Kept(all[..i], playing)
    ensures UpdateCalls(all[..i + 1], playing) == UpdateCalls(all[..i], playing) + SourceUpdateCalls(all[i], playing)
  {
    assert all[..i + 1][..i] == all[..i];
  }

  /** The listener set-up at the start of update. */
  function ListenerCalls(listenerPosition: Vec3, cameraVector: Vec3): seq<AlCall>
  {
    [ListenerPosition(listenerPosition), ListenerOrientation(cameraVector, Vec3(0.0, 1.0, 0.0)),
     ListenerVelocity(ORIGIN)]
  }

  /** update's pass over `all`: the calls for each source in order, and the ones kept. */
  method UpdatePass(all: seq<AudioSource>, playing: set<int>) returns (kept: seq<AudioSource>, calls: seq<AlCall>)
    ensures kept == Kept(all, playing)
    ensures calls == UpdateCalls(all, playing)
  {
    kept, calls := [], [];
    var i := 0;
    while i < |all|
      invariant 0 <= i <= |all|
      invariant kept == Kept(all[..i], playing)
      invariant calls == UpdateCalls(all[..i], playing)
    {
      UpdateStep(all, i, playing);
      var source := all[i];
      var isPlaying := source.sourceId in playing;
      if !isPlaying && !source.loop {
        calls := calls + [Stop(source.sourceId), DeleteSource(source.sourceId)];
      } else {
        // the six property updates: position, gain, pitch, rolloff, max and reference distance
        calls := calls + SourceUpdateCalls(source, playing);
        kept := kept + [source];
      }
      i := i + 1;
    }
    assert all[..i] == all;
  }

  /** Every file of `files` decodes. */
  predicate AllDecode(files: seq<(int, string)>, decode: string -> Option<Decoded>)
  {
    forall k :: 0 <= k < |files| ==> decode(files[k].1).Some?
  }

  /**
   * The AL calls of init's loop over `files` when every file decodes: file k
   * gets the buffer named `name0 + k + 1`, filled in the format for its
   * channel count.
   */
  function LoadCalls(files: seq<(int, string)>, decode: string -> Option<Decoded>, name0: nat): (r: seq<AlCall>)
    requires AllDecode(files, decode)
    ensures |r| == 2 * |files|
  {
    if files == [] then []
    else
      var n := |files| - 1;
      var d := decode(files[n].1).value;
      LoadCalls(files[..n], decode, name0)
      + [GenBuffer(name0 + n + 1), BufferData(name0 + n + 1, FormatFor(d.channels), d.samples, d.sampleRate)]
  }

  /** `audioBuffers[id] = buffer` for each file in order, file k's buffer being `name0 + k + 1`. */
  function Loaded(buffers: map<int, int>, files: seq<(int, string)>, name0: nat): (r: map<int, int>)
    ensures r.Keys == buffers.Keys + set k | 0 <= k < |files| :: files[k].0
  {
    if files == [] then buffers
    else
      var n := |files| - 1;
      Loaded(buffers, files[..n], name0)[files[n].0 := name0 + n + 1]
  }

  /** A later file with the same id overrides an earlier one: each id ends with the buffer of its last file. */
  lemma {:induction false} LoadedLast(buffers: map<int, int>, files: seq<(int, string)>, name0: nat, k: nat)
    requires k < |files| && forall j :: k < j < |files| ==> files[j].0 != files[k].0
    ensures Loaded(buffers, files, name0)[files[k].0] == name0 + k + 1
    decreases |files|
  {
    var n := |files| - 1;
    if k < n {
      LoadedLast(buffers, files[..n], name0, k);
    }
  }

  class AudioManager {
    var audioBuffers: map<int, int>
    var sources: seq<AudioSource>
    var trace: seq<AlCall>
    var lastName: nat

    /** A source is registered at most once. */
    ghost predicate Valid()
      reads this
    {
      Seqs.Distinct(sources)
    }

    constructor ()
      ensures Valid() && audioBuffers == map[] && sources == [] && trace == [] && lastName == 0
    {
      audioBuffers := map[];
      sources := [];
      trace := [];
      lastName := 0;
    }

    method NewName() returns (name: int)
      modifies this
      ensures name == lastName && lastName == old(lastName) + 1
      ensures audioBuffers == old(audioBuffers) && sources == old(sources) && trace == old(trace)
    {
      lastName := lastName + 1;
      name := lastName;
    }

    /**
     * createBufferForAudioFile: an undecodable file is an error; otherwise a
     * new buffer holds the samples in the format for their channel count.
     */
    method CreateBufferForAudioFile(file: string, decode: string -> Option<Decoded>) returns (r: Result<int, string>)
      modifies this
      ensures decode(file).None? ==> r.Err? && trace == old(trace) && lastName == old(lastName)
      ensures decode(file).Some? ==> (r.Ok? && r.value == lastName == old(lastName) + 1
        && var d := decode(file).value;
           trace == old(trace) + [GenBuffer(r.value), BufferData(r.value, FormatFor(d.channels), d.samples, d.sampleRate)])
      ensures audioBuffers == old(audioBuffers) && sources == old(sources)
    {
      var raw := decode(file);
      if raw.None? {
        return Err("can't load audio file: '" + file + "'");
      }
      var format := -1;
      if raw.value.channels == 1 {
        format := AL_FORMAT_MONO16;
      } else if raw.value.channels == 2 {
        format := AL_FORMAT_STEREO16;
      }
      var buffer := NewName();
      trace := trace + [GenBuffer(buffer), BufferData(buffer, format, raw.value.samples, raw.value.sampleRate)];
      r := Ok(buffer);
    }

    /**
     * init (after the device set-up): one buffer per audio file, stored
     * under its id; the first file that cannot be decoded ends it with an
     * error.
     */
    method Init(files: seq<(int, string)>, decode: string -> Option<Decoded>) returns (r: Result<(), string>)
      requires Valid()
      modifies this
      ensures Valid() && sources == old(sources)
      ensures r.Ok? <==> AllDecode(files, decode)
      ensures r.Ok? ==> trace == old(trace) + [DistanceModelExponent] + LoadCalls(files, decode, old(lastName))
      ensures r.Ok? ==> audioBuffers == Loaded(old(audioBuffers), files, old(lastName))
      ensures r.Ok? ==> lastName == old(lastName) + |files|
      ensures forall id :: id in old(audioBuffers) ==> id in audioBuffers
    {
      trace := trace + [DistanceModelExponent];
      var i := 0;
      while i < |files|
        invariant 0 <= i <= |files|
        invariant sources == old(sources) && AllDecode(files[..i], decode)
        invariant trace == old(trace) + [DistanceModelExponent] + LoadCalls(files[..i], decode, old(lastName))
        invariant audioBuffers == Loaded(old(audioBuffers), files[..i], old(lastName))
        invariant lastName == old(lastName) + i
      {
        var (id, file) := files[i];
        var buffer := CreateBufferForAudioFile(file, decode);
        if buffer.Err? {
          assert !AllDecode(files, decode) by { assert decode(files[i].1).None?; }
          return Err(buffer.error);
        }
        assert files[..i + 1][..i] == files[..i];
        audioBuffers := audioBuffers[id := buffer.value];
        i := i + 1;
      }
      assert files[..i] == files;
      r := Ok(());
    }

    /**
     * registerSource: a registered source is ignored; a source whose audio id
     * has no buffer is an error before anything is created; otherwise a new
     * OpenAL source plays its buffer, and the source records the name and
     * joins the list.
     */
    method RegisterSource(source: AudioSource) returns (r: Result<(), string>)
      requires Valid()
      modifies this, source
      ensures Valid()
      ensures source in old(sources) ==> (r.Ok? && sources == old(sources) && trace == old(trace)
        && source.sourceId == old(source.sourceId))
      ensures source !in old(sources) && source.audioId !in audioBuffers ==> (r.Err?
        && sources == old(sources) && trace == old(trace) && source.sourceId == old(source.sourceId))
      ensures source !in old(sources) && source.audioId in audioBuffers ==> (r.Ok?
        && source.sourceId == lastName && lastName == old(lastName) + 1
        && sources == old(sources) + [source]
        && trace == old(trace) + [GenSource(source.sourceId), SourceBuffer(source.sourceId, audioBuffers[source.audioId]),
                                  SourceLooping(source.sourceId, source.loop), Play(source.sourceId)])
      ensures audioBuffers == old(audioBuffers)
      ensures source.loop == old(source.loop) && source.volume == old(source.volume) && source.ratio == old(source.ratio)
    {
      if source in sources {
        return Ok(());
      }
      if source.audioId !in audioBuffers {
        return Err("can't get buffer for audio id");
      }
      var bufferForId := audioBuffers[source.audioId];
      var sourcePointer := NewName();
      trace := trace + [GenSource(sourcePointer), SourceBuffer(sourcePointer, bufferForId), SourceLooping(sourcePointer, source.loop)];
      source.sourceId := sourcePointer;
      trace := trace + [Play(sourcePointer)];
      Seqs.AppendDistinct(sources, source);
      sources := sources + [source];
      r := Ok(());
    }

    /** unregisterSource: an absent source is ignored; otherwise it is stopped, deleted and removed. */
    method UnregisterSource(source: AudioSource)
      requires Valid()
      modifies this
      ensures Valid() && audioBuffers == old(audioBuffers) && lastName == old(lastName)
      ensures source !in old(sources) ==> sources == old(sources) && trace == old(trace)
      ensures source in old(sources) ==> (sources == Seqs.Without(old(sources), source)
        && trace == old(trace) + [Stop(source.sourceId), DeleteSource(source.sourceId)])
      ensures source !in sources
    {
      if source !in sources {
        return;
      }
      trace := trace + [Stop(source.sourceId), DeleteSource(source.sourceId)];
      Seqs.WithoutDistinct(sources, source);
      Seqs.RemoveFirstDistinct(sources, source);
      sources := Seqs.RemoveFirst(sources, source);
    }

    /**
     * update: the listener set-up, then one pass over the sources that stops,
     * deletes and removes every finished one-shot source and refreshes the
     * properties of the others.
     */
    method Update(listenerPosition: Vec3, cameraVector: Vec3, playing: set<int>)
      requires Valid()
      modifies this
      ensures Valid() && audioBuffers == old(audioBuffers) && lastName == old(lastName)
      ensures sources == Kept(old(sources), playing)
      ensures trace == old(trace) + ListenerCalls(listenerPosition, cameraVector) + UpdateCalls(old(sources), playing)
    {
      var kept, calls := UpdatePass(sources, playing);
      KeptDistinct(sources, playing);
      trace := trace + ListenerCalls(listenerPosition, cameraVector) + calls;
      sources := kept;
    }
  }
}
