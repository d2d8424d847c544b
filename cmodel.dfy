/**
 * The few C notions the package record relies on: pointers that may be NULL,
 * NUL-terminated strings, and the bounded copy done by strlcpy.
 */
module CModel {

  /** A pointer argument that may be NULL (`None`). */
  datatype Option<T> = None | Some(value: T)

  /** True when `s` contains no NUL character. */
  predicate NoNul(s: string) {
    forall i | 0 <= i < |s| :: s[i] != '\0'
  }

  /** The characters of a NUL-terminated C string, without its terminator. */
  type CStr = s: string | NoNul(s)

  function Min(a: int, b: int): int {
    if a < b then a else b
  }

  /**
   * What a C string function sees of a zero-terminated byte buffer holding
   * `buf`: everything before the first NUL.
   */
  function CPrefix(buf: string): (r: CStr)
    ensures |r| <= |buf| && r == buf[..|r|]
    ensures |r| < |buf| ==> buf[|r|] == '\0'
    ensures NoNul(buf) ==> r == buf
  {
    if buf == [] then []
    else if buf[0] == '\0' then []
    else [buf[0]] + CPrefix(buf[1..])
  }

  /**
   * strlcpy(dst, src, cap) into a zero-filled buffer of `cap` bytes: the
   * destination then reads as the longest prefix of `src` that leaves room
   * for the terminator.
   */
  function Strlcpy(src: CStr, cap: nat): (r: CStr)
    requires cap > 0
    ensures |r| < cap && |r| <= |src| && r == src[..|r|]
    ensures |src| < cap ==> r == src
    ensures |src| >= cap ==> |r| == cap - 1
  {
    src[..Min(|src|, cap - 1)]
  }
}
