/** Values shared by every part of the harvesting model. */
module FieldTypes {

  datatype Option<T> = None | Some(value: T)

  /** A grid cell `(x, y)`; the grid's `place_agent` stores one of these in a patch's `pos`. */
  datatype Pos = Pos(x: int, y: int)

  /** The failures a patch's step can raise. */
  datatype Error =
    | UnplacedPatch  // the price was asked for while `pos` is still None (a ValueError)
    | RainNotDrawn   // the patch stepped before the model drew any rain (`None <= p` is a TypeError)

  datatype Outcome = Pass | Fail(error: Error)

  datatype Result<T> = Ok(value: T) | Err(error: Error)
}
