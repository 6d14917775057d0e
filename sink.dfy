/** An output file written through a java.io.PrintWriter. Everything the
    program prints is recorded in `written`; once the writer is closed,
    further prints are silently dropped, so the file holds what was printed
    before the first close. */
module Streams {

  import opened Base

  /** What the file holds, given everything printed and where it was closed. */
  function Content<R>(written: seq<R>, closedAt: Option<nat>): (c: seq<R>)
    ensures |c| <= |written| && c == written[..|c|]
    ensures closedAt.None? ==> c == written
  {
    if closedAt.Some? && closedAt.value <= |written| then written[..closedAt.value] else written
  }

  /** A print after the close leaves the file as it was. */
  lemma PrintAfterClose<R>(written: seq<R>, at: nat, more: seq<R>)
    requires at <= |written|
    ensures Content(written + more, Some(at)) == Content(written, Some(at))
  {
    assert (written + more)[..at] == written[..at];
  }

  /** The file behind a PrintWriter field, none when the field is null. */
  function Present<R>(f: Sink?<R>): set<Sink<R>> {
    if f == null then {} else {f}
  }

  class Sink<R> {
    var written: seq<R>
    var closedAt: Option<nat>

    constructor ()
      ensures written == [] && closedAt == None
    {
      written := [];
      closedAt := None;
    }

    /** printf */
    method Print(r: R)
      modifies this`written
      ensures written == old(written) + [r]
    {
      written := written + [r];
    }

    /** close(): the first call ends the file, a later one changes nothing. */
    method Close()
      modifies this`closedAt
      ensures closedAt == if old(closedAt).Some? then old(closedAt) else Some(|written|)
      ensures Content(written, closedAt) == Content(written, old(closedAt))
    {
      if closedAt.None? {
        closedAt := Some(|written|);
      }
    }
  }
}
