/** QUuid::createUuid() as an external generator, and the brace trimming that
    Position and Schlagwort apply to its text before using it as a domain key. */
module UuidGen {
  import opened Qt

  /** QUuid::toString(): 36 characters of the UUID between '{' and '}'. */
  type UuidText = s: string | |s| == 38 witness "{00000000-0000-0000-0000-000000000000}"

  /** right(length - 1) then left(length - 1): the generator text without its
      first and last character. */
  function StripBraces(raw: string): (r: string)
    ensures |raw| >= 2 ==> r == raw[1..|raw| - 1]
    ensures |raw| < 2 ==> r == ""
  {
    var tail := Right(raw, |raw| - 1);
    Left(tail, |tail| - 1)
  }

  /** A generated key is never empty, so an entity that received one is valid. */
  lemma GeneratedUuidLength(raw: UuidText)
    ensures |StripBraces(raw)| == 36
  {
  }

  /** The source of fresh UUIDs: its i-th answer is raw(i). Which texts it
      produces is left open; each call advances to the next answer. */
  class UuidSource {
    const raw: nat -> UuidText
    var issued: nat

    constructor (raw: nat -> UuidText)
      ensures this.raw == raw && issued == 0
    {
      this.raw := raw;
      issued := 0;
    }

    /** QUuid::createUuid().toString(). */
    method CreateUuid() returns (text: UuidText)
      modifies this
      ensures text == raw(old(issued))
      ensures issued == old(issued) + 1
    {
      text := raw(issued);
      issued := issued + 1;
    }

    /** QUuid::createUuid() followed by the brace trimming of prepareNew and fill*. */
    method NewKey() returns (key: string)
      modifies this
      ensures key == StripBraces(raw(old(issued)))
      ensures |key| == 36
      ensures issued == old(issued) + 1
    {
      var text := CreateUuid();
      key := StripBraces(text);
    }
  }
}
