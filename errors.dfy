/** Failures the scale engine can raise, and a result type that carries them.

    The first three are the engine's own exception classes; the others are the
    Python errors that particular inputs reach (an empty note string, a root whose
    chromatic position is never found, a missing scale name, ...), made explicit. */
module Errors {

  datatype Error =
    | NoRoot                  // NoRootError: no root was given
    | BadNote(note: string)   // BadNoteError: the text is not a note of the Western scale
    | BadScale(scale: string) // BadScaleError: the scale name is not in the formula table
    | EmptyNote               // ValueError: unpacking the characters of an empty string
    | PointerUnset            // AttributeError: the root never matched a chromatic slot
    | DiaNameUnset            // AttributeError: no scale name was given, so dia_name was never set
    | NotFound                // ValueError: list.index found no equal item
    | OutOfRange              // IndexError: a list position outside the list
    | BadOperand              // UnboundLocalError: `==` against something that is not a note, string or tuple

  /** The three exception classes and the Python errors NotFound and EmptyNote are
      all ValueErrors, so an `except ValueError` catches them. */
  predicate IsValueError(e: Error) {
    e.NoRoot? || e.BadNote? || e.BadScale? || e.EmptyNote? || e.NotFound?
  }

  /** The message each of the engine's exception classes carries. */
  function Message(e: Error): (m: string)
    ensures e.NoRoot? || e.BadNote? || e.BadScale? <==> |m| > 0
  {
    match e
    case NoRoot => "please define a root note to start from."
    case BadNote(_) => "the note you defined is not part of the Western Scale"
    case BadScale(_) => "the scale you defined isn't one that has been implemented yet"
    case _ => ""
  }

  datatype Option<+T> = None | Some(value: T)

  datatype Result<+T> = Success(value: T) | Failure(error: Error) {
    predicate IsFailure() {
      Failure?
    }

    function PropagateFailure<U>(): Result<U>
      requires Failure?
    {
      Failure(error)
    }

    function Extract(): T
      requires Success?
    {
      value
    }
  }
}
