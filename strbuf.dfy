/** struct sr_strbuf, the growable character buffer the renderers append to. */
module Strbuf {

  class StrBuf {
    /** The characters before the terminating NUL. */
    var buf: string

    /** sr_strbuf_new */
    constructor ()
      ensures buf == []
    {
      buf := [];
    }

    /** sr_strbuf_append_str */
    method Append(s: string)
      modifies this
      ensures buf == old(buf) + s
    {
      buf := buf + s;
    }

    /** sr_strbuf_append_char */
    method AppendChar(c: char)
      modifies this
      ensures buf == old(buf) + [c]
    {
      buf := buf + [c];
    }

    /** `strbuf->buf[0] = c`. On an empty buffer the write lands on the
        terminating NUL, which the next append overwrites, so it is lost. */
    method SetFirst(c: char)
      modifies this
      ensures |buf| == |old(buf)|
      ensures buf == if old(buf) == [] then [] else [c] + old(buf)[1..]
    {
      if buf != [] {
        buf := [c] + buf[1..];
      }
    }
  }
}
