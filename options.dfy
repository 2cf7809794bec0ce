/** An optional value: what `processAudio` publishes on a call (nothing on an early return). */
module Options {

  datatype Option<+T> = None | Some(value: T)

}
