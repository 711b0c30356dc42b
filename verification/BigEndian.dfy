/** Fixed-width big-endian integers: `writeInt`, `writeLong` and `writeBigUInt64BE`. */
module BigEndian {
  import opened TransferFile

  /** 256 to the power of `width`. */
  function Bound(width: nat): nat
    ensures Bound(width) > 0
  {
    if width == 0 then 1 else 256 * Bound(width - 1)
  }

  function Write(n: nat, width: nat): (s: seq<byte>)
    ensures |s| == width
  {
    if width == 0 then [] else Write(n / 256, width - 1) + [(n % 256) as byte]
  }

  function Read(s: seq<byte>): (n: nat)
    ensures n < Bound(|s|)
  {
    if s == [] then 0 else 256 * Read(s[..|s| - 1]) + s[|s| - 1] as nat
  }

  lemma {:induction false} ReadWrite(n: nat, width: nat)
    requires n < Bound(width)
    ensures Read(Write(n, width)) == n
  {
    if width > 0 {
      var s := Write(n, width);
      assert s[..|s| - 1] == Write(n / 256, width - 1);
      ReadWrite(n / 256, width - 1);
    }
  }

  lemma WriteIsInjective(m: nat, n: nat, width: nat)
    requires m < Bound(width) && n < Bound(width)
    ensures Write(m, width) == Write(n, width) <==> m == n
  {
    ReadWrite(m, width);
    ReadWrite(n, width);
  }
}
