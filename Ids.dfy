/** Validated identifiers of points (IDPonto) and routes (IDRota).
    An identifier holds a string; assigning a string that fails the validity
    test leaves the identifier holding the empty string, the sentinel that
    stands for "no route" and "not found". */
module Ids {

  /** The validity test of an identifier. The header that defines it is not
      part of this model; this stand-in rejects the empty string (the one fact
      the rest of the model relies on) and the ';' field delimiter of the
      input tables. */
  predicate ValidId(s: string)
  {
    |s| > 0 && ';' !in s
  }

  /** The sentinel identifier. */
  const Sentinel: string := ""

  /** The string an identifier holds after `set(s)`. */
  function Sanitize(s: string): (r: string)
    ensures ValidId(r) <==> ValidId(s)
    ensures ValidId(r) ==> r == s
    ensures !ValidId(r) ==> r == Sentinel
  {
    if ValidId(s) then s else Sentinel
  }

  /** A point identifier. */
  class IdPonto {
    var t: string

    constructor ()
      ensures t == Sentinel
    {
      t := Sentinel;
    }

    predicate Valid()
      reads this
    {
      ValidId(t)
    }

    /** `IDPonto::set`: store the string, or the sentinel if it is invalid. */
    method Set(s: string)
      modifies this
      ensures t == Sanitize(s)
      ensures Valid() || t == Sentinel
      ensures Valid() <==> ValidId(s)
    {
      t := s;
      if !Valid() {
        t := Sentinel;
      }
    }
  }

  /** A route identifier. */
  class IdRota {
    var t: string

    constructor ()
      ensures t == Sentinel
    {
      t := Sentinel;
    }

    predicate Valid()
      reads this
    {
      ValidId(t)
    }

    /** `IDRota::set`: store the string, or the sentinel if it is invalid. */
    method Set(s: string)
      modifies this
      ensures t == Sanitize(s)
      ensures Valid() || t == Sentinel
      ensures Valid() <==> ValidId(s)
    {
      t := s;
      if !Valid() {
        t := Sentinel;
      }
    }
  }
}
