/** Shared vocabulary of the clip workflow model: the workflow states, the
    media player's lifecycle signals and the workflow slots that handle them,
    the commands the workflow sends to its media and media player, and the
    workflow record itself. */
module WorkflowTypes {

  /** An optional value; stands for a C++ reference that may be null. */
  datatype Option<+T> = None | Some(value: T)

  /** ClipWorkflow::State. */
  datatype State = Stopped | Initializing | Ready | Rendering | StopScheduled | EndReached

  /** Lifecycle signals emitted asynchronously by a media player. */
  datatype Signal = Playing | PositionChanged | Paused | EndOfMedia

  /** The slots of a clip workflow that get connected to a media player signal:
      setPositionAfterPlayback (on playing), pauseAfterPlaybackStarted (on
      positionChanged), pausedMediaPlayer (on paused) and endReached (on
      endReached). */
  datatype Slot = SeekOnPlaying | PauseOnPosition | ReadyOnPaused | EndOnEndReached

  /** The one signal each slot is ever connected to. */
  function SignalOf(slot: Slot): Signal
  {
    match slot
    case SeekOnPlaying => Playing
    case PauseOnPosition => PositionChanged
    case ReadyOnPaused => Paused
    case EndOnEndReached => EndOfMedia
  }

  /** The one slot that can listen to a signal. */
  function ListenerOf(sig: Signal): (slot: Slot)
    ensures SignalOf(slot) == sig
  {
    match sig
    case Playing => SeekOnPlaying
    case PositionChanged => PauseOnPosition
    case Paused => ReadyOnPaused
    case EndOfMedia => EndOnEndReached
  }

  /** A media player handed to `initialize`, identified by an opaque handle. */
  datatype Player = Player(handle: nat)

  /** The part of a clip descriptor the workflow reads: its begin position,
      as handed to the media player's setPosition. */
  datatype Clip = Clip(begin: real)

  /** The maximum frame geometry (VIDEOWIDTH x VIDEOHEIGHT pixels). */
  datatype Geometry = Geometry(width: nat, height: nat)

  /** The frame buffer: `id` stands for its address, `size` for its length in bytes. */
  datatype Buffer = Buffer(id: nat, size: nat)

  /** Pixel format requested from the decoder's memory video output. */
  datatype Chroma = RV24

  /** The memory-video-output geometry configured on the media. */
  datatype VmemConfig = VmemConfig(chroma: Chroma, width: nat, height: nat, pitch: nat)

  /** Requests the workflow makes. ConfigureVmem addresses the clip's media
      (setVmem adds its options to the media before initialize attaches the
      new player); LoadMedia(p) is player p loading that media (setMedia);
      the others address the attached player. */
  datatype Command =
    | ConfigureVmem(config: VmemConfig)
    | LoadMedia(into: Player)
    | Play
    | Pause
    | SetPosition(pos: real)
    | StopPlayback

  /** One clip workflow: the clip it previews, its buffer, its state, the
      attached media player (m_mediaPlayer) and the set of its slots that
      are currently connected to the player's signals. A set is enough:
      connecting again makes a duplicate connection, but a disconnect removes
      every duplicate, a connection removed during an emission is skipped,
      and the endReached slot gives the same state however often it runs. */
  datatype Workflow = Workflow(
    clip: Clip,
    geometry: Geometry,
    buffer: Buffer,
    state: State,
    player: Option<Player>,
    connected: set<Slot>)

  /** The workflow after an operation, with the commands it issued, in order. */
  datatype Step = Step(next: Workflow, commands: seq<Command>)
}
