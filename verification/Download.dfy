/** Resumable downloads: FILE_XFER::init_download and the end of a download in
    FILE_XFER_SET::poll (client/file_xfer.C), and how the file is opened (client/http_curl.C). */
module Download {
  import opened Options

  newtype Byte = b: int | 0 <= b < 256

  const MIN_DOWNLOAD_INCREMENT: nat := 5000
  const HTTP_STATUS_OK: nat := 200

  // ---- The code ------------------------------------------------------------------------

  /** starting_size: where the download goes on. */
  function StartOf(file: Option<seq<Byte>>, nbytes: nat): nat {
    if file.None? || |file.value| >= nbytes then 0 else |file.value|
  }

  /** The file when it has been opened: emptied, or open for appending. */
  function Opened(file: Option<seq<Byte>>, nbytes: nat): seq<Byte> {
    if StartOf(file, nbytes) > 0 then file.value else []
  }

  /** What the poll makes of the file `f` when the operation is done: the truncation, and the
      trimming of a file that was sent as a whole. */
  function Truncated(f: seq<Byte>, start: nat, nbytes: nat, ok: bool): seq<Byte>
    requires start <= |f|
  {
    if ok then
      if nbytes != 0 && |f| != nbytes && 0 < |f| - start < MIN_DOWNLOAD_INCREMENT then f[..start] else f
    else
      f[..start + if |f| - start < MIN_DOWNLOAD_INCREMENT then 0 else |f| - start - MIN_DOWNLOAD_INCREMENT]
  }

  function Trimmed(f: seq<Byte>, start: nat, nbytes: nat, response: nat): seq<Byte> {
    if start != 0 && response == HTTP_STATUS_OK && |f| > nbytes && start <= |f| then f[start..] else f
  }

  function Polled(f: seq<Byte>, start: nat, nbytes: nat, ok: bool, response: nat): seq<Byte>
    requires start <= |f|
  {
    if ok && nbytes != 0 && |f| == nbytes then f
    else Trimmed(Truncated(f, start, nbytes, ok), start, nbytes, response)
  }

  class Transfer {
    const nbytes: nat
    var file: Option<seq<Byte>>
    var start: nat

    ghost predicate Valid()
      reads this
    {
      file.Some? ==> start <= |file.value|
    }

    /** init_download, and opening the file. */
    method InitDownload()
      modifies this
      ensures Valid() && start == StartOf(old(file), nbytes) && file == Some(Opened(old(file), nbytes))
    {
      if file.None? || |file.value| >= nbytes { start := 0; } else { start := |file.value|; }
      if start == 0 { file := Some([]); }
    }

    /** libcurl_write: data from the server is appended. */
    method Write(data: seq<Byte>)
      requires file.Some? && Valid()
      modifies this`file
      ensures Valid() && file == Some(old(file.value) + data)
    {
      file := Some(file.value + data);
    }

    /** Lines 276-346 for a download; `ok` is http_op_retval == 0. */
    method Done(ok: bool, response: nat)
      requires Valid()
      modifies this`file
      ensures old(file).None? ==> file == None
      ensures old(file).Some? ==> file == Some(Polled(old(file.value), start, nbytes, ok, response))
    {
      if file.None? { return; }
      var size := |file.value|;
      var diff := size - start;
      if ok {
        if nbytes != 0 {
          if size == nbytes { return; }
          if diff > 0 && diff < MIN_DOWNLOAD_INCREMENT { file := Some(file.value[..start]); }
        }
      } else {
        if diff < MIN_DOWNLOAD_INCREMENT { diff := 0; } else { diff := diff - MIN_DOWNLOAD_INCREMENT; }
        file := Some(file.value[..start + diff]);
      }
      if start != 0 && response == HTTP_STATUS_OK {
        size := |file.value|;
        if size > nbytes { file := Some(file.value[start..]); }
      }
    }
  }

  // ---- Servers -----------------------------------------------------------------------------

  /** What a server may do with a request for `content` from `start` on; `status` is the HTTP status
      of the response, whatever it is. */
  datatype Episode =
    | Range(k: nat, status: nat)                     // sends the next k bytes, without an error
    | Error(k: nat, text: seq<Byte>, status: nat)    // sends k bytes, then an error and its text
    | Message(text: seq<Byte>, status: nat)          // a proxy sends a short message instead

  /** Servers and proxies that honour the Range header; a proxy message does not happen to fill up
      the file. */
  predicate Honest(content: seq<Byte>, start: nat, e: Episode) {
    match e
    case Range(k, _) => start + k <= |content|
    case Error(k, text, _) => start + k <= |content| && |text| <= MIN_DOWNLOAD_INCREMENT
    case Message(text, _) => |text| < MIN_DOWNLOAD_INCREMENT && content != [] && start + |text| != |content|
  }

  /** The data that arrives. */
  function Data(content: seq<Byte>, start: nat, e: Episode): seq<Byte>
    requires Honest(content, start, e)
  {
    match e
    case Range(k, _) => content[start..start + k]
    case Error(k, text, _) => content[start..start + k] + text
    case Message(text, _) => text
  }

  /** The file after an episode. */
  function AfterEpisode(content: seq<Byte>, file: Option<seq<Byte>>, e: Episode): seq<Byte>
    requires Honest(content, StartOf(file, |content|), e)
  {
    var start := StartOf(file, |content|);
    Polled(Opened(file, |content|) + Data(content, start, e), start, |content|, !e.Error?, e.status)
  }

  predicate PrefixOf(file: Option<seq<Byte>>, content: seq<Byte>) { file.Some? ==> file.value <= content }

  /** After every episode the file is a prefix of the content, and an unfinished download has lost
      nothing. */
  lemma EpisodeKeepsPrefix(content: seq<Byte>, file: Option<seq<Byte>>, e: Episode)
    requires PrefixOf(file, content) && Honest(content, StartOf(file, |content|), e)
    ensures AfterEpisode(content, file, e) <= content
    ensures file.Some? && |file.value| < |content| ==> file.value <= AfterEpisode(content, file, e)
  {
    var start := StartOf(file, |content|);
    assert Opened(file, |content|) == content[..start];
    assert file.Some? && |file.value| < |content| ==> file.value == content[..start];
    assert e.Message? ==> start < |content|;
    hide Polled, Opened, StartOf, Honest, Data;
    match e
    case Range(k, status) => RangeKeepsPrefix(content, start, e);
    case Error(k, text, status) => ErrorKeepsPrefix(content, start, e);
    case Message(text, status) => MessageKeepsPrefix(content, start, e);
  }

  lemma RangeKeepsPrefix(content: seq<Byte>, start: nat, e: Episode)
    requires e.Range? && Honest(content, start, e)
    ensures content[..start] <= Polled(content[..start] + Data(content, start, e), start, |content|, true,
            e.status) <= content
  {
    assert content[..start] + content[start..start + e.k] == content[..start + e.k];
    assert content[..start + e.k][..start] == content[..start];
  }

  lemma ErrorKeepsPrefix(content: seq<Byte>, start: nat, e: Episode)
    requires e.Error? && Honest(content, start, e)
    ensures content[..start] <= Polled(content[..start] + Data(content, start, e), start, |content|, false,
            e.status) <= content
  {
    var f := content[..start + e.k] + e.text;
    assert content[..start] + Data(content, start, e) == f;
    var n := start + if |f| - start < MIN_DOWNLOAD_INCREMENT then 0 else |f| - start - MIN_DOWNLOAD_INCREMENT;
    assert f[..n] == content[..n];
  }

  lemma MessageKeepsPrefix(content: seq<Byte>, start: nat, e: Episode)
    requires e.Message? && Honest(content, start, e) && start < |content|
    ensures Polled(content[..start] + Data(content, start, e), start, |content|, true, e.status) == content[..start]
  {
    assert (content[..start] + e.text)[..start] == content[..start];
  }

  /** Every episode is honest for the file that it finds. */
  predicate HonestRun(content: seq<Byte>, file: Option<seq<Byte>>, es: seq<Episode>)
    decreases |es|
  {
    es == [] || (Honest(content, StartOf(file, |content|), es[0])
        && HonestRun(content, Some(AfterEpisode(content, file, es[0])), es[1..]))
  }

  function Run(content: seq<Byte>, file: Option<seq<Byte>>, es: seq<Episode>): Option<seq<Byte>>
    requires HonestRun(content, file, es)
    decreases |es|
  {
    if es == [] then file else Run(content, Some(AfterEpisode(content, file, es[0])), es[1..])
  }

  /** Over any sequence of episodes. */
  lemma {:induction false} RunKeepsPrefix(content: seq<Byte>, file: Option<seq<Byte>>, es: seq<Episode>)
    requires PrefixOf(file, content) && HonestRun(content, file, es)
    ensures PrefixOf(Run(content, file, es), content)
    decreases |es|
  {
    if es != [] {
      EpisodeKeepsPrefix(content, file, es[0]);
      RunKeepsPrefix(content, Some(AfterEpisode(content, file, es[0])), es[1..]);
    }
  }

  /** An episode without an error that sends all that is missing completes the file. */
  lemma Completes(content: seq<Byte>, file: Option<seq<Byte>>, status: nat)
    requires PrefixOf(file, content)
    ensures var start := StartOf(file, |content|);
            AfterEpisode(content, file, Range(|content| - start, status)) == content
  {
    var start := StartOf(file, |content|);
    assert Opened(file, |content|) == content[..start];
    assert content[..start] + content[start..start + (|content| - start)] == content;
  }

  /** A server that ignores the Range header and completes the file: the trimmed file is the content
      exactly if the content has at least 5000 bytes; if it has fewer, the file stays as it was. */
  lemma RangeIgnored(content: seq<Byte>, file: seq<Byte>)
    requires file <= content && 0 < |file| < |content|
    ensures var after := Polled(file + content, |file|, |content|, true, HTTP_STATUS_OK);
            (after == content <==> |content| >= MIN_DOWNLOAD_INCREMENT)
                && (|content| < MIN_DOWNLOAD_INCREMENT ==> after == file)
  {
    var all := file + content;
    assert all[..|file|] == file && all[|file|..] == content;
  }

  // ---- Servers that always send the whole file ---------------------------------------------

  /** The file after a reply with the whole content and status 200, whatever was asked for. */
  function AfterWhole(content: seq<Byte>, file: Option<seq<Byte>>): seq<Byte> {
    Polled(Opened(file, |content|) + content, StartOf(file, |content|), |content|, true, HTTP_STATUS_OK)
  }

  /** And after `n` of them, as long as the download goes on. */
  function AfterWholes(content: seq<Byte>, file: Option<seq<Byte>>, n: nat): Option<seq<Byte>> {
    if n == 0 then file else Some(AfterWhole(content, AfterWholes(content, file, n - 1)))
  }

  /** A download that goes on from a part of a short content. */
  predicate Resumed(content: seq<Byte>, file: Option<seq<Byte>>) {
    StartOf(file, |content|) > 0 && |content| < MIN_DOWNLOAD_INCREMENT
  }

  /** Such a reply completes a download that starts from the beginning, and a resumed one exactly if
      the content has at least 5000 bytes; otherwise it changes nothing. */
  lemma WholeReply(content: seq<Byte>, file: Option<seq<Byte>>)
    requires PrefixOf(file, content)
    ensures if Resumed(content, file) then file == Some(AfterWhole(content, file)) != Some(content)
            else AfterWhole(content, file) == content
  {
    if StartOf(file, |content|) == 0 {
      assert [] + content == content;
    } else {
      RangeIgnored(content, file.value);
    }
  }

  lemma CompleteIsNotResumed(content: seq<Byte>)
    ensures !Resumed(content, Some(content)) && PrefixOf(Some(content), content)
  {
  }

  /** So a partial file of a content with fewer than 5000 bytes is never completed by any number of
      such replies, and everything else by the first one. */
  lemma {:induction false} WholeReplies(content: seq<Byte>, file: Option<seq<Byte>>, n: nat)
    requires PrefixOf(file, content)
    ensures AfterWholes(content, file, n) == if n == 0 || Resumed(content, file) then file else Some(content)
  {
    hide Resumed, PrefixOf, AfterWhole;
    if n > 0 {
      WholeReplies(content, file, n - 1);
      CompleteIsNotResumed(content);
      WholeReply(content, AfterWholes(content, file, n - 1));
    }
  }

  // ---- How much an episode keeps -----------------------------------------------------------

  /** The length of the file after an episode: an error costs the last 5000 bytes, but nothing that
      was there before; of what arrives without an error, fewer than 5000 bytes are dropped unless
      they complete the file, and everything else is kept. */
  lemma EpisodeLength(content: seq<Byte>, file: Option<seq<Byte>>, e: Episode)
    requires PrefixOf(file, content) && Honest(content, StartOf(file, |content|), e)
    ensures var start := if file.Some? && |file.value| < |content| then |file.value| else 0;
            |AfterEpisode(content, file, e)| ==
              match e
              case Range(k, _) => if k < 5000 && start + k != |content| then start else start + k
              case Error(k, text, _) => if k + |text| < 5000 then start else start + k + |text| - 5000
              case Message(_, _) => start
  {
    var start := StartOf(file, |content|);
    assert |Opened(file, |content|)| == start;
    assert e.Message? ==> start < |content|;
  }
}
