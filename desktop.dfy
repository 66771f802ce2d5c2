/**
 * What the exporters do to the world outside the graph: files they create,
 * message dialogs they show and folder choosers they open. Whether a file
 * operation fails is decided by an oracle given as input.
 */
module Desktop {
  import opened Wrappers

  /** `new File(folder, name)`; the folder "" is the working directory. */
  datatype Path = Path(folder: string, name: string)

  /** A written settings file, line by line, or a graph export (its GEXF content is not modelled). */
  datatype FileContent = TextLines(lines: seq<string>) | GraphData

  /** A message dialog: `INFORMATION_MESSAGE` or `ERROR_MESSAGE`. */
  datatype Notice = Info(title: string, message: string) | Error(title: string, message: string)

  /**
   * How writing a text file goes: opening it fails, or writing the line with
   * index `failAtLine` fails (and nothing after it is written), and whether
   * `close` fails.
   */
  datatype WriteOracle = WriteOracle(openFails: bool, failAtLine: Option<nat>, closeFails: bool)

  /** Writing `lines` stops with an exception. */
  predicate WriteFails(lines: seq<string>, io: WriteOracle)
  {
    io.failAtLine.Some? && io.failAtLine.value < |lines|
  }

  /** The lines that were written before the failure, if any. */
  function WrittenLines(lines: seq<string>, io: WriteOracle): (w: seq<string>)
    ensures w <= lines
    ensures WriteFails(lines, io) ==> |w| == io.failAtLine.value
    ensures !WriteFails(lines, io) ==> w == lines
  {
    if WriteFails(lines, io) then lines[..io.failAtLine.value] else lines
  }

  /** The files on disk, the dialogs shown and the start folders of the folder choosers opened. */
  class Host {
    var files: map<Path, FileContent>
    var notices: seq<Notice>
    var prompts: seq<string>

    constructor (files: map<Path, FileContent>)
      ensures this.files == files && notices == [] && prompts == []
    {
      this.files := files;
      notices := [];
      prompts := [];
    }
  }

  /**
   * Writes `lines` one by one to the opened `file`, which holds what has
   * been written so far; `failed` says the oracle's failing write was
   * reached, which ends the writing.
   */
  method WriteLines(host: Host, file: Path, lines: seq<string>, io: WriteOracle) returns (failed: bool)
    modifies host
    ensures failed == WriteFails(lines, io)
    ensures host.files == old(host.files)[file := TextLines(WrittenLines(lines, io))]
    ensures host.notices == old(host.notices) && host.prompts == old(host.prompts)
  {
    var written: seq<string> := [];
    host.files := host.files[file := TextLines(written)];
    var k := 0;
    failed := false;
    while k < |lines| && !failed
      invariant k <= |lines| && written == lines[..k]
      invariant failed ==> WriteFails(lines, io) && io.failAtLine.value == k
      invariant !failed && io.failAtLine.Some? ==> io.failAtLine.value >= k
      invariant host.files == old(host.files)[file := TextLines(written)]
      invariant host.notices == old(host.notices) && host.prompts == old(host.prompts)
      decreases |lines| - k, if failed then 0 else 1
    {
      if io.failAtLine == Some(k) {
        failed := true;
      } else {
        written := written + [lines[k]];
        host.files := host.files[file := TextLines(written)];
        k := k + 1;
      }
    }
    assert !failed ==> written == lines && !WriteFails(lines, io);
  }
}
