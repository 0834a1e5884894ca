/** The beat scheduler of the procedural soundtrack: two Markov chains trained
    on fixed note patterns produce a melody and a bass line, and a beat clock
    switches the bass, drum and melody layers on at fixed times and decides
    which voices sound on each beat. Audio clips and volumes are abstracted
    into `Sound` and `Layer` events. */
module ProceduralMusic {
  import opened Markov

  /** Training patterns (MIDI note numbers). */
  const MelodyPattern1: seq<int> := [60, 62, 64, 65, 67, 65, 64, 62, 60]
  const MelodyPattern2: seq<int> := [60, 64, 67, 72, 67, 64, 60]
  const MelodyPattern3: seq<int> := [67, 69, 67, 65, 64, 62, 64, 65, 67]
  const BassPattern: seq<int> := [48, 48, 48, 55, 55, 48, 48, 53, 53, 48]

  /** Notes the melody and the bass can ever play. */
  const MelodyNotes: set<int> := {60, 62, 64, 65, 67, 69, 72}
  const BassNotes: set<int> := {48, 53, 55}

  /** Lengths and start notes of the generated sequences. */
  const MelodyLength: int := 200
  const BassLength: int := 100
  const MelodyStartNote: int := 60
  const BassStartNote: int := 48

  /** Duration of a bass note, in seconds. */
  const BassNoteLength: real := 0.8

  /** The melody chain's dictionary once all three patterns are trained, in order. */
  function MelodyTransitions(): Transitions
  {
    Trained(Trained(Trained(map[], MelodyPattern1), MelodyPattern2), MelodyPattern3)
  }

  /** The bass chain's dictionary once the bass pattern is trained. */
  function BassTransitions(): Transitions
  {
    Trained(map[], BassPattern)
  }

  /** Every successor the melody chain can pick is a note of the melody scale. */
  lemma MelodyTransitionsWithinScale()
    ensures SuccessorsWithin(MelodyTransitions(), MelodyNotes)
  {
    var t1 := Trained(map[], MelodyPattern1);
    var t2 := Trained(t1, MelodyPattern2);
    TrainedPrefixWithin(map[], MelodyPattern1, PairCount(MelodyPattern1), MelodyNotes);
    TrainedPrefixWithin(t1, MelodyPattern2, PairCount(MelodyPattern2), MelodyNotes);
    TrainedPrefixWithin(t2, MelodyPattern3, PairCount(MelodyPattern3), MelodyNotes);
  }

  /** Every successor the bass chain can pick is one of its three notes. */
  lemma BassTransitionsWithinNotes()
    ensures SuccessorsWithin(BassTransitions(), BassNotes)
  {
    TrainedPrefixWithin(map[], BassPattern, PairCount(BassPattern), BassNotes);
  }

  /** `WalkStaysWithin` for a generated array. */
  lemma GeneratedWithin(t: Transitions, a: array<int>, notes: set<int>)
    requires SuccessorsWithin(t, notes)
    requires a.Length > 0 && a[0] in notes
    requires forall i :: 1 <= i < a.Length ==> Step(t, a[i - 1], a[i])
    ensures forall i :: 0 <= i < a.Length ==> a[i] in notes
  {
    WalkStaysWithin(t, a[..], notes);
  }

  /** A layer whose fade-in has been started. */
  datatype Layer = BassLayer | DrumsLayer | MelodyLayer

  /** A one-shot clip played on a beat. */
  datatype Sound =
    | MelodyNote(note: int, duration: real)
    | BassNote(note: int, duration: real)
    | Kick
    | Snare
    | HiHat

  /** Every fourth melody note, counted by the melody cursor, is long. */
  function MelodyNoteLength(melodyIndex: int): (duration: real)
    ensures duration == 0.5 <==> melodyIndex % 4 == 0
    ensures duration == 0.3 <==> melodyIndex % 4 != 0
  {
    if melodyIndex % 4 == 0 then 0.5 else 0.3
  }

  /** The melody cursor wraps at a multiple of four, so the long-note
      rhythm carries on unbroken across the wrap. */
  lemma LongNotesKeepRhythm(melodyIndex: int)
    requires 0 <= melodyIndex < MelodyLength
    ensures MelodyNoteLength((melodyIndex + 4) % MelodyLength) == MelodyNoteLength(melodyIndex)
  {
  }

  /** The drum hits of one beat while the drums are active. */
  function DrumHits(beatCount: nat): (hits: seq<Sound>)
    ensures |hits| == 2 && hits[1] == HiHat
    ensures hits[0] == if beatCount % 2 == 0 then Kick else Snare
  {
    (if beatCount % 4 == 0 || beatCount % 4 == 2 then [Kick] else [])
    + (if beatCount % 4 == 1 || beatCount % 4 == 3 then [Snare] else [])
    + [HiHat]
  }

  /** The fade-in started for one layer, if it switches on now. */
  function Activation(wasActive: bool, elapsedTime: real, startTime: real, layer: Layer): seq<Layer>
  {
    if !wasActive && elapsedTime >= startTime then [layer] else []
  }

  class ProceduralMusicManager {
    var bpm: real
    var bassStartTime: real
    var drumsStartTime: real
    var melodyStartTime: real

    var melodyChain: MarkovChain?
    var bassChain: MarkovChain?

    var melodySequence: array?<int>
    var bassSequence: array?<int>
    var melodyIndex: int
    var bassIndex: int

    var beatInterval: real
    var nextBeatTime: real
    var startTime: real
    var beatCount: int

    var bassActive: bool
    var drumsActive: bool
    var melodyActive: bool

    /** How many melody and bass notes have been played so far. */
    ghost var melodyPlayed: nat
    ghost var bassPlayed: nat

    /** The state the field initialisers establish, before `Start` runs. */
    ghost predicate Initial()
      reads this`melodyIndex, this`bassIndex, this`beatCount
      reads this`bassActive, this`drumsActive, this`melodyActive
      reads this`melodyPlayed, this`bassPlayed
    {
      && melodyIndex == 0 && bassIndex == 0 && beatCount == 0
      && !bassActive && !drumsActive && !melodyActive
      && melodyPlayed == 0 && bassPlayed == 0
    }

    /** The scheduler invariant that holds from `Start` on: both lines have
        their full length, every note lies in its scale, each line is a walk
        of its chain, and each cursor is its play count modulo the length. */
    ghost predicate Valid()
      reads this`melodySequence, this`bassSequence, melodySequence, bassSequence
      reads this`melodyIndex, this`bassIndex, this`beatCount, this`melodyPlayed, this`bassPlayed
      reads this`melodyChain, this`bassChain, melodyChain, bassChain
    {
      && MelodyLine() && BassLine()
      && melodyIndex == melodyPlayed % MelodyLength
      && bassIndex == bassPlayed % BassLength
      && beatCount >= 0
    }

    /** The melody line: 200 notes of the melody scale, walked on the melody chain. */
    ghost predicate MelodyLine()
      reads this`melodySequence, melodySequence, this`melodyChain, melodyChain
    {
      && melodySequence != null && melodyChain != null
      && melodySequence.Length == MelodyLength
      && (forall i :: 0 <= i < MelodyLength ==> melodySequence[i] in MelodyNotes)
      && (forall i :: 1 <= i < MelodyLength ==> Step(melodyChain.transitions, melodySequence[i - 1], melodySequence[i]))
    }

    /** The bass line: 100 notes among 48, 53 and 55, walked on the bass chain. */
    ghost predicate BassLine()
      reads this`bassSequence, bassSequence, this`bassChain, bassChain
    {
      && bassSequence != null && bassChain != null
      && bassSequence.Length == BassLength
      && (forall i :: 0 <= i < BassLength ==> bassSequence[i] in BassNotes)
      && (forall i :: 1 <= i < BassLength ==> Step(bassChain.transitions, bassSequence[i - 1], bassSequence[i]))
    }

    /** The field initialisers. */
    constructor ()
      ensures Initial()
      ensures bpm == 140.0
      ensures bassStartTime == 5.0 && drumsStartTime == 10.0 && melodyStartTime == 15.0
      ensures melodySequence == null && bassSequence == null
    {
      bpm := 140.0;
      bassStartTime, drumsStartTime, melodyStartTime := 5.0, 10.0, 15.0;
      melodyChain, bassChain := null, null;
      melodySequence, bassSequence := null, null;
      melodyIndex, bassIndex := 0, 0;
      beatInterval, nextBeatTime, startTime := 0.0, 0.0, 0.0;
      beatCount := 0;
      bassActive, drumsActive, melodyActive := false, false, false;
      melodyPlayed, bassPlayed := 0, 0;
    }

    /** Builds both chains from the fixed patterns. */
    method TrainMarkovChains()
      modifies this`melodyChain, this`bassChain
      ensures melodyChain != null && bassChain != null && melodyChain != bassChain
      ensures fresh(melodyChain) && fresh(bassChain)
      ensures melodyChain.Valid() && melodyChain.transitions == MelodyTransitions()
      ensures bassChain.Valid() && bassChain.transitions == BassTransitions()
    {
      var melody := new MarkovChain();
      melody.Train(MelodyPattern1);
      melody.Train(MelodyPattern2);
      melody.Train(MelodyPattern3);
      var bass := new MarkovChain();
      bass.Train(BassPattern);
      melodyChain, bassChain := melody, bass;
    }

    /** Start: the beat clock, the two chains and the two generated note
        sequences. The engine clock's reading is the parameter `now`. */
    method Start(now: real)
      requires Initial()
      requires bpm > 0.0
      modifies this`beatInterval, this`startTime, this`nextBeatTime
      modifies this`melodyChain, this`bassChain, this`melodySequence, this`bassSequence
      ensures Valid() && Initial()
      ensures fresh(melodySequence) && fresh(bassSequence) && melodySequence[0] == MelodyStartNote && bassSequence[0] == BassStartNote
      ensures melodyChain != null && bassChain != null && melodyChain != bassChain
      ensures fresh(melodyChain) && fresh(bassChain)
      ensures melodyChain.Valid() && melodyChain.transitions == MelodyTransitions()
      ensures bassChain.Valid() && bassChain.transitions == BassTransitions()
      ensures beatInterval == 60.0 / bpm
      ensures startTime == now && nextBeatTime == now
    {
      StartClock(now);
      TrainMarkovChains();
      GenerateSequences();
    }

    /** The beat clock: one beat every `60 / bpm` seconds, the first one now. */
    method StartClock(now: real)
      requires bpm > 0.0
      modifies this`beatInterval, this`startTime, this`nextBeatTime
      ensures beatInterval == 60.0 / bpm
      ensures startTime == now && nextBeatTime == now
    {
      beatInterval := 60.0 / bpm;
      startTime := now;
      nextBeatTime := now;
    }

    /** The melody and bass lines walked from the trained chains; every note
        lies in its scale. */
    method GenerateSequences()
      requires melodyChain != null && bassChain != null
      requires melodyChain.Valid() && melodyChain.transitions == MelodyTransitions()
      requires bassChain.Valid() && bassChain.transitions == BassTransitions()
      requires Initial()
      modifies this`melodySequence, this`bassSequence
      ensures Valid() && Initial()
      ensures fresh(melodySequence) && fresh(bassSequence)
      ensures melodySequence[0] == MelodyStartNote && bassSequence[0] == BassStartNote
    {
      GenerateMelody();
      GenerateBass();
    }

    /** `melodyChain.Generate(60, 200)`. */
    method GenerateMelody()
      requires melodyChain != null && melodyChain.Valid() && melodyChain.transitions == MelodyTransitions()
      modifies this`melodySequence
      ensures MelodyLine() && fresh(melodySequence) && melodySequence[0] == MelodyStartNote
    {
      var melody := melodyChain.Generate(MelodyStartNote, MelodyLength);
      assert forall i :: 0 <= i < MelodyLength ==> melody[i] in MelodyNotes by {
        MelodyTransitionsWithinScale();
        GeneratedWithin(melodyChain.transitions, melody, MelodyNotes);
      }
      melodySequence := melody;
    }

    /** `bassChain.Generate(48, 100)`. */
    method GenerateBass()
      requires bassChain != null && bassChain.Valid() && bassChain.transitions == BassTransitions()
      modifies this`bassSequence
      ensures BassLine() && fresh(bassSequence) && bassSequence[0] == BassStartNote
    {
      var bass := bassChain.Generate(BassStartNote, BassLength);
      assert forall i :: 0 <= i < BassLength ==> bass[i] in BassNotes by {
        BassTransitionsWithinNotes();
        GeneratedWithin(bassChain.transitions, bass, BassNotes);
      }
      bassSequence := bass;
    }

    /** Switches each layer on once the elapsed time reaches its start time;
        a layer never switches off. Returns the layers whose fade-in starts now. */
    method CheckLayerActivation(elapsedTime: real) returns (fadeIns: seq<Layer>)
      modifies this`bassActive, this`drumsActive, this`melodyActive
      ensures bassActive == (old(bassActive) || elapsedTime >= bassStartTime)
      ensures drumsActive == (old(drumsActive) || elapsedTime >= drumsStartTime)
      ensures melodyActive == (old(melodyActive) || elapsedTime >= melodyStartTime)
      ensures fadeIns == Activation(old(bassActive), elapsedTime, bassStartTime, BassLayer)
                       + Activation(old(drumsActive), elapsedTime, drumsStartTime, DrumsLayer)
                       + Activation(old(melodyActive), elapsedTime, melodyStartTime, MelodyLayer)
    {
      fadeIns := [];
      if !bassActive && elapsedTime >= bassStartTime {
        bassActive := true;
        fadeIns := fadeIns + [BassLayer];
      }
      if !drumsActive && elapsedTime >= drumsStartTime {
        drumsActive := true;
        fadeIns := fadeIns + [DrumsLayer];
      }
      if !melodyActive && elapsedTime >= melodyStartTime {
        melodyActive := true;
        fadeIns := fadeIns + [MelodyLayer];
      }
    }

    /** Plays one beat: the next melody note while the melody is active, the
        next bass note on even beats while the bass is active, and a kick or
        snare plus a hi-hat while the drums are active. Each cursor wraps
        around its sequence. */
    method PlayBeat() returns (sounds: seq<Sound>)
      requires Valid()
      modifies this`melodyIndex, this`bassIndex, this`melodyPlayed, this`bassPlayed
      ensures Valid()
      ensures melodyIndex == if melodyActive then (old(melodyIndex) + 1) % MelodyLength else old(melodyIndex)
      ensures melodyPlayed == if melodyActive then old(melodyPlayed) + 1 else old(melodyPlayed)
      ensures bassIndex == if bassActive && beatCount % 2 == 0 then (old(bassIndex) + 1) % BassLength else old(bassIndex)
      ensures bassPlayed == if bassActive && beatCount % 2 == 0 then old(bassPlayed) + 1 else old(bassPlayed)
      ensures sounds ==
        (if melodyActive then [MelodyNote(melodySequence[old(melodyIndex)], MelodyNoteLength(old(melodyIndex)))] else [])
        + (if bassActive && beatCount % 2 == 0 then [BassNote(bassSequence[old(bassIndex)], BassNoteLength)] else [])
        + (if drumsActive then DrumHits(beatCount) else [])
      ensures forall i :: 0 <= i < |sounds| && sounds[i].MelodyNote? ==> sounds[i].note in MelodyNotes
      ensures forall i :: 0 <= i < |sounds| && sounds[i].BassNote? ==> sounds[i].note in BassNotes
    {
      var melody := PlayMelody();
      var bass := PlayBass();
      sounds := melody + bass + (if drumsActive then DrumHits(beatCount) else []);
    }

    /** The melody voice of a beat: the note under the cursor, then the cursor advances. */
    method PlayMelody() returns (sounds: seq<Sound>)
      requires Valid()
      modifies this`melodyIndex, this`melodyPlayed
      ensures Valid()
      ensures melodyIndex == if melodyActive then (old(melodyIndex) + 1) % MelodyLength else old(melodyIndex)
      ensures melodyPlayed == if melodyActive then old(melodyPlayed) + 1 else old(melodyPlayed)
      ensures sounds == if melodyActive then [MelodyNote(melodySequence[old(melodyIndex)], MelodyNoteLength(old(melodyIndex)))] else []
      ensures melodyActive ==> sounds[0].note in MelodyNotes
    {
      sounds := [];
      if melodyActive {
        var note := melodySequence[melodyIndex];
        var noteDuration := MelodyNoteLength(melodyIndex);
        sounds := [MelodyNote(note, noteDuration)];
        melodyIndex := (melodyIndex + 1) % melodySequence.Length;
        melodyPlayed := melodyPlayed + 1;
      }
    }

    /** The bass voice of a beat: on even beats, the note under the cursor, then the cursor advances. */
    method PlayBass() returns (sounds: seq<Sound>)
      requires Valid()
      modifies this`bassIndex, this`bassPlayed
      ensures Valid()
      ensures bassIndex == if bassActive && beatCount % 2 == 0 then (old(bassIndex) + 1) % BassLength else old(bassIndex)
      ensures bassPlayed == if bassActive && beatCount % 2 == 0 then old(bassPlayed) + 1 else old(bassPlayed)
      ensures sounds == if bassActive && beatCount % 2 == 0 then [BassNote(bassSequence[old(bassIndex)], BassNoteLength)] else []
      ensures bassActive && beatCount % 2 == 0 ==> sounds[0].note in BassNotes
    {
      sounds := [];
      if bassActive && beatCount % 2 == 0 {
        var note := bassSequence[bassIndex];
        sounds := [BassNote(note, BassNoteLength)];
        bassIndex := (bassIndex + 1) % bassSequence.Length;
        bassPlayed := bassPlayed + 1;
      }
    }

    /** One pass of the beat loop, resumed once the clock reading `now` has
        reached the next beat time. */
    method Beat(now: real) returns (fadeIns: seq<Layer>, sounds: seq<Sound>)
      requires Valid()
      requires now >= nextBeatTime
      modifies this`bassActive, this`drumsActive, this`melodyActive
      modifies this`melodyIndex, this`bassIndex, this`melodyPlayed, this`bassPlayed
      modifies this`nextBeatTime, this`beatCount
      ensures Valid()
      ensures beatCount == old(beatCount) + 1
      ensures nextBeatTime == old(nextBeatTime) + beatInterval
      ensures old(bassActive) ==> bassActive
      ensures old(drumsActive) ==> drumsActive
      ensures old(melodyActive) ==> melodyActive
      ensures bassActive <==> old(bassActive) || now - startTime >= bassStartTime
      ensures drumsActive <==> old(drumsActive) || now - startTime >= drumsStartTime
      ensures melodyActive <==> old(melodyActive) || now - startTime >= melodyStartTime
      ensures fadeIns == Activation(old(bassActive), now - startTime, bassStartTime, BassLayer)
                       + Activation(old(drumsActive), now - startTime, drumsStartTime, DrumsLayer)
                       + Activation(old(melodyActive), now - startTime, melodyStartTime, MelodyLayer)
      ensures melodyIndex == if melodyActive then (old(melodyIndex) + 1) % MelodyLength else old(melodyIndex)
      ensures bassIndex == if bassActive && old(beatCount) % 2 == 0 then (old(bassIndex) + 1) % BassLength else old(bassIndex)
      ensures sounds ==
        (if melodyActive then [MelodyNote(melodySequence[old(melodyIndex)], MelodyNoteLength(old(melodyIndex)))] else [])
        + (if bassActive && old(beatCount) % 2 == 0 then [BassNote(bassSequence[old(bassIndex)], BassNoteLength)] else [])
        + (if drumsActive then DrumHits(old(beatCount)) else [])
    {
      var elapsedTime := now - startTime;
      fadeIns := CheckLayerActivation(elapsedTime);
      sounds := PlayBeat();
      nextBeatTime := nextBeatTime + beatInterval;
      beatCount := beatCount + 1;
    }
  }
}
