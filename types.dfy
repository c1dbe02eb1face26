// Enumerations and bit-flag sets shared by every part of the tween engine.
// A C# [Flags] byte enum is modelled as the set of flags that are switched on,
// so `(state & F) == F` becomes `F in state` and `state |= F` becomes `state + {F}`.

module TweenTypes {

  datatype Option<T> = None | Some(value: T)

  /** Flags of TweenStateType: the four declared ones plus the three the runners use. */
  datatype StateFlag = IsPlaying | IsPaused | IsCompleted | JustStarted
                     | JustEnded | HasHandle | RequiresRecycling

  /** Flags of TweenTransformType: which channels a slot animates. */
  datatype TransformChannel = Movement | Rotation | Scaling

  /** Flags of TweenSpaceType: movement/rotation space plus the single-axis rotate flags. */
  datatype SpaceFlag = LocalMovement | WorldMovement | LocalRotation | WorldRotation
                     | RotateX | RotateY | RotateZ | RotateModeXYZ

  datatype RotateMode = XYZ | X | Y | Z

  datatype SpaceType = World | Local

  datatype LoopType = NoLoop | RestartLoop | PingPongLoop

  datatype EaseType =
      Linear
    | SineIn | SineOut | SineInOut
    | QuadIn | QuadOut | QuadInOut
    | CubicIn | CubicOut | CubicInOut
    | QuartIn | QuartOut | QuartInOut
    | QuintIn | QuintOut | QuintInOut
    | ExpoIn | ExpoOut | ExpoInOut
    | CircIn | CircOut | CircInOut
    | ElasticIn | ElasticOut | ElasticInOut | Punch
    | BackIn | BackOut | BackInOut
    | BounceIn | BounceOut | BounceInOut

  /** TweenHandleActionType: the command a handle last asked for. */
  datatype HandleActionType = NoAction | Play | Pause | Rewind | Restart | Stop | Recycle

  /** C# `short` range, used for loop counts. */
  const ShortMin: int := -32768
  const ShortMax: int := 32767

  predicate IsShort(n: int) { ShortMin <= n <= ShortMax }
}
