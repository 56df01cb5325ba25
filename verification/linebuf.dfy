/** struct m2k_linebuf and struct m2k_cmdbuf: a line edited in place, with a fixed capacity. */
module LineBuffer {
  import opened Wire

  class LineBuf {
    const data: array<Byte>
    var ptr: nat

    ghost predicate Valid()
      reads this
    {
      ptr <= data.Length
    }

    ghost function Contents(): seq<Byte>
      requires Valid()
      reads this, data
    {
      data[..ptr]
    }

    constructor (capacity: nat)
      ensures Valid() && fresh(data) && data.Length == capacity && Contents() == []
    {
      data := new Byte[capacity];
      ptr := 0;
    }

    method Reset()
      modifies this
      ensures Valid() && Contents() == []
    {
      ptr := 0;
    }

    /** putLine1 and putCmd1: a full line drops the byte. */
    method Put1(c: Byte)
      requires Valid()
      modifies this, data
      ensures Valid()
      ensures Contents() == if |old(Contents())| < data.Length then old(Contents()) + [c] else old(Contents())
    {
      if ptr < data.Length {
        data[ptr] := c;
        ptr := ptr + 1;
      }
    }

    /** lineBufBS and cmdBufBS */
    method Backspace()
      requires Valid()
      modifies this
      ensures Valid()
      ensures Contents() == if old(Contents()) == [] then [] else old(Contents())[..|old(Contents())| - 1]
    {
      if ptr > 0 {
        ptr := ptr - 1;
      }
    }
  }
}
