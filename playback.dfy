/** The narration controller of the main screen: a text buffer, a speed
    setting, at most one current audio source, the `isGenerating` and
    `isPlaying` flags and the message shown under the text. The speech
    synthesis call is a collaborator whose settled outcome is a parameter,
    and an audio source is an object with a `live` flag standing for the
    browser's buffer source node. */
module Playback {
  import opened Wrappers
  import opened Text

  /** The three settings of the speed selector. */
  datatype Speed = Slow | Normal | Fast

  /** A decoded audio buffer returned by synthesis; only its identity matters. */
  datatype AudioBuffer = AudioBuffer(id: nat)

  /** What the awaited synthesis call settles to: a buffer, `null`, or a
      thrown error. */
  datatype Synthesis = Produced(buffer: AudioBuffer) | NoAudio | Threw

  /** The three messages the controller sets. */
  datatype Notice = EmptyStory | AudioUnavailable | GenerationFailed

  /** The Italian text of each message; each is a full sentence. */
  function NoticeText(n: Notice): (m: string)
    ensures |m| > 0 && m[|m| - 1] == '.'
  {
    match n
    case EmptyStory => "Per favore, inserisci una storia da leggere."
    case AudioUnavailable => "Non è stato possibile generare l'audio. Riprova."
    case GenerationFailed => "Si è verificato un errore durante la generazione dell'audio."
  }

  /** The three failures are told apart: distinct notices have distinct texts. */
  lemma NoticeTextsDistinct(a: Notice, b: Notice)
    ensures NoticeText(a) == NoticeText(b) ==> a == b
  {
    match a
    case EmptyStory =>
    case AudioUnavailable =>
    case GenerationFailed =>
  }

  /** The hardware playback rate applied to the new source for each speed:
      0.95 for slow, 1.0 for normal and 1.1 for fast. */
  function PlaybackRate(speed: Speed): (rate: real)
    ensures 95.0 / 100.0 <= rate <= 11.0 / 10.0
    ensures rate == 1.0 <==> speed == Normal
    ensures rate < 1.0 <==> speed == Slow
    ensures rate > 1.0 <==> speed == Fast
  {
    match speed
    case Slow => 95.0 / 100.0
    case Normal => 1.0
    case Fast => 11.0 / 10.0
  }

  /** One audio buffer source node. It is created already started, and stops
      when told to or when it reaches the end of its buffer. */
  class Source {
    const buffer: AudioBuffer
    const rate: real
    var live: bool
    var stopCalls: nat

    /** `createBufferSource`, setting its buffer and rate, `connect` and
        `start(0)`. */
    constructor (buffer: AudioBuffer, rate: real)
      ensures this.buffer == buffer && this.rate == rate
      ensures live && stopCalls == 0
    {
      this.buffer := buffer;
      this.rate := rate;
      live := true;
      stopCalls := 0;
    }

    /** `stop()`. A second stop may throw in a browser; every caller swallows
        that, so here it simply has no further effect on `live`. */
    method Stop()
      modifies this
      ensures !live && stopCalls == old(stopCalls) + 1
    {
      live := false;
      stopCalls := stopCalls + 1;
    }
  }

  /** The indicator next to the controls. */
  datatype Indicator = PlayingNow | GeneratingNow | Ready

  class StoryReader {
    var text: string
    var isGenerating: bool
    var isPlaying: bool
    var speed: Speed
    var error: Option<Notice>
    var current: Source?
    /** Every source this controller has created. */
    ghost var sources: set<Source>

    /** Playing means holding a current source, and the current source is
        one of ours and has not been stopped. */
    ghost predicate Valid()
      reads this, sources
    {
      && (isPlaying <==> current != null)
      && (current != null ==> current in sources && current.live)
    }

    constructor ()
      ensures Valid()
      ensures text == "" && !isGenerating && !isPlaying && speed == Normal
      ensures error == None && current == null && sources == {}
    {
      text := "";
      isGenerating := false;
      isPlaying := false;
      speed := Normal;
      error := None;
      current := null;
      sources := {};
    }

    /** The "Leggi Storia" button is shown when nothing plays and is enabled
        when nothing is being generated and the text is not blank. */
    predicate ReadEnabled()
      reads this
      ensures ReadEnabled() <==> !isPlaying && !isGenerating && !IsBlank(text)
      ensures ReadEnabled() ==> !StopShown()
    {
      BlankIffTrimEmpty(text);
      !isPlaying && !isGenerating && Trim(text) != []
    }

    /** The "Ferma Lettura" button replaces the read button while playing. */
    predicate StopShown()
      reads this
      ensures StopShown() <==> Status() == PlayingNow
    {
      isPlaying
    }

    /** The status text: playing wins over generating. */
    function Status(): (s: Indicator)
      reads this
      ensures s == PlayingNow <==> isPlaying
      ensures s == GeneratingNow <==> !isPlaying && isGenerating
    {
      if isPlaying then PlayingNow else if isGenerating then GeneratingNow else Ready
    }

    method SetText(t: string)
      modifies this`text
      ensures text == t
    {
      text := t;
    }

    method SetSpeed(s: Speed)
      modifies this`speed
      ensures speed == s
    {
      speed := s;
    }

    /** Stops the current source, if any, and forgets it; always leaves
        nothing playing. */
    method HandleStop()
      requires Valid()
      modifies this, current
      ensures Valid()
      ensures current == null && !isPlaying
      ensures old(current) != null ==>
        !old(current).live && old(current).stopCalls == old(current.stopCalls) + 1
      ensures text == old(text) && isGenerating == old(isGenerating)
      ensures speed == old(speed) && error == old(error) && sources == old(sources)
    {
      if current != null {
        current.Stop();
        current := null;
      }
      isPlaying := false;
    }

    /** The synchronous part of `handleReadStory`, up to the awaited synthesis
        call. A blank text only sets the message; otherwise the message is
        cleared, generation starts, and the text and speed to synthesize are
        returned as the request. */
    method BeginReadStory() returns (request: Option<(string, Speed)>)
      requires Valid()
      modifies this`error, this`isGenerating
      ensures Valid()
      ensures IsBlank(text) ==>
        request == None && error == Some(EmptyStory) && isGenerating == old(isGenerating)
      ensures !IsBlank(text) ==>
        request == Some((text, speed)) && error == None && isGenerating
    {
      BlankIffTrimEmpty(text);
      if Trim(text) == [] {
        error := Some(EmptyStory);
        return None;
      }
      error := None;
      isGenerating := true;
      request := Some((text, speed));
    }

    /** The continuation of `handleReadStory` once synthesis has settled;
        `requested` is the speed captured when the read began. A buffer
        replaces whatever was playing by exactly one new source at the
        speed's rate; `null` and a thrown error only set their messages and
        leave playback alone. Generation is over in every case. */
    method FinishReadStory(requested: Speed, outcome: Synthesis)
      requires Valid()
      modifies this, current
      ensures Valid()
      ensures !isGenerating
      ensures text == old(text) && speed == old(speed)
      ensures outcome.Produced? ==>
        && current != null && fresh(current)
        && current.buffer == outcome.buffer && current.rate == PlaybackRate(requested)
        && current.live && current.stopCalls == 0
        && isPlaying && error == old(error)
        && sources == old(sources) + {current}
        && (old(current) != null ==>
              !old(current).live && old(current).stopCalls == old(current.stopCalls) + 1)
      ensures !outcome.Produced? ==>
        && current == old(current) && isPlaying == old(isPlaying) && sources == old(sources)
        && (current != null ==> current.live && current.stopCalls == old(current.stopCalls))
        && error == Some(if outcome.NoAudio? then AudioUnavailable else GenerationFailed)
    {
      match outcome {
        case Produced(buffer) =>
          HandleStop();
          var source := new Source(buffer, PlaybackRate(requested));
          current := source;
          sources := sources + {source};
          isPlaying := true;
        case NoAudio =>
          error := Some(AudioUnavailable);
        case Threw =>
          error := Some(GenerationFailed);
      }
      isGenerating := false;
    }

    /** The `onended` handler of source `s`. It clears the current reference
        and the playing flag whatever source is current, exactly as the
        handler does. */
    method SourceEnded(s: Source)
      requires Valid() && s in sources
      modifies this, s
      ensures Valid()
      ensures !s.live && s.stopCalls == old(s.stopCalls)
      ensures current == null && !isPlaying
      ensures text == old(text) && isGenerating == old(isGenerating)
      ensures speed == old(speed) && error == old(error) && sources == old(sources)
    {
      s.live := false;
      isPlaying := false;
      current := null;
    }

    /** Empties the text, stops playback and clears the message. */
    method ClearText()
      requires Valid()
      modifies this, current
      ensures Valid()
      ensures text == "" && !isPlaying && current == null && error == None
      ensures old(current) != null ==>
        !old(current).live && old(current).stopCalls == old(current.stopCalls) + 1
      ensures isGenerating == old(isGenerating) && speed == old(speed) && sources == old(sources)
    {
      text := "";
      HandleStop();
      error := None;
    }
  }

  /** Stopping twice leaves the controller exactly as stopping once does: the
      source that was current receives one stop in all, and nothing else
      changes. */
  method HandleStopIdempotent(reader: StoryReader)
    requires reader.Valid()
    modifies reader, reader.current
    ensures reader.Valid() && reader.current == null && !reader.isPlaying
    ensures old(reader.current) != null ==>
      !old(reader.current).live && old(reader.current).stopCalls == old(reader.current.stopCalls) + 1
    ensures reader.text == old(reader.text) && reader.isGenerating == old(reader.isGenerating)
    ensures reader.speed == old(reader.speed) && reader.error == old(reader.error)
    ensures reader.sources == old(reader.sources)
  {
    reader.HandleStop();
    reader.HandleStop();
  }

  /** Two reads that both produce audio, whatever was playing before: the
      second buffer's source ends up current and live, and the first one
      is no longer current and received exactly one stop. */
  method ReplacePlayback(reader: StoryReader, firstBuffer: AudioBuffer, secondBuffer: AudioBuffer, s: Speed)
    returns (first: Source)
    requires reader.Valid()
    modifies reader, reader.current
    ensures reader.Valid() && reader.isPlaying && reader.current != null
    ensures reader.current.buffer == secondBuffer && reader.current.live
    ensures first.buffer == firstBuffer && !first.live && first.stopCalls == 1
    ensures reader.current != first
  {
    reader.FinishReadStory(s, Produced(firstBuffer));
    first := reader.current;
    reader.FinishReadStory(s, Produced(secondBuffer));
  }
}
