// Names shared by every module of the model.
module Common {
  datatype Option<+T> = None | Some(value: T) {
    function GetOr(default: T): T {
      match this
      case Some(v) => v
      case None => default
    }
  }

  // A weak pointer is the id of its target; it can be locked while that id is
  // in the registry of live objects of the right kind.
  type Id = nat

  function Opt(slot: Option<Id>): set<Id> {
    if slot.Some? then {slot.value} else {}
  }

  // The contents of a shared-memory buffer, copied when a commit reads it.
  type Byte = x: int | 0 <= x < 256
  type Bytes = seq<Byte>
}
