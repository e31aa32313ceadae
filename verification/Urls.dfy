/** Cycling through the URLs of a file: FILE_INFO::get_init_url and get_next_url
    (client/client_types.C). */
module Urls {
  import opened Options

  /** A URL; `upload` if it names a file upload handler. */
  datatype Url = Url(text: string, upload: bool)

  predicate Wanted(isUpload: bool, u: Url) { u.upload == isUpload }

  /** The position after `i`, going round. */
  function Next(i: nat, n: nat): (j: nat)
    requires i < n
    ensures j == if i + 1 == n then 0 else i + 1
  {
    (i + 1) % n
  }

  /** How many of the first `n` URLs are wanted, and which they are, in order. */
  function WantedUpTo(isUpload: bool, urls: seq<Url>, n: nat): seq<nat>
    requires n <= |urls|
  {
    if n == 0 then []
    else WantedUpTo(isUpload, urls, n - 1) + if Wanted(isUpload, urls[n - 1]) then [n - 1] else []
  }

  function WantedUrls(isUpload: bool, urls: seq<Url>): seq<nat> { WantedUpTo(isUpload, urls, |urls|) }

  lemma {:induction false} WantedIs(isUpload: bool, urls: seq<Url>, n: nat)
    requires n <= |urls|
    ensures forall i: nat :: i in WantedUpTo(isUpload, urls, n) <==> i < n && Wanted(isUpload, urls[i])
    ensures forall j, k :: 0 <= j < k < |WantedUpTo(isUpload, urls, n)| ==>
            WantedUpTo(isUpload, urls, n)[j] < WantedUpTo(isUpload, urls, n)[k]
  {
    if n == 0 {
      assert WantedUpTo(isUpload, urls, n) == [];
    } else {
      WantedIs(isUpload, urls, n - 1);
      var w := WantedUpTo(isUpload, urls, n - 1);
      assert forall j :: 0 <= j < |w| ==> w[j] in w;
    }
  }

  /** Nothing wanted between two positions. */
  lemma {:induction false} WantedGap(isUpload: bool, urls: seq<Url>, m: nat, n: nat)
    requires m <= n <= |urls| && forall i :: m <= i < n ==> !Wanted(isUpload, urls[i])
    ensures WantedUpTo(isUpload, urls, n) == WantedUpTo(isUpload, urls, m)
  {
    if m < n { WantedGap(isUpload, urls, m, n - 1); }
  }

  lemma NoneWanted(isUpload: bool, urls: seq<Url>)
    requires forall i :: 0 <= i < |urls| ==> !Wanted(isUpload, urls[i])
    ensures WantedUrls(isUpload, urls) == []
  {
    WantedGap(isUpload, urls, 0, |urls|);
  }

  class FileInfo {
    const urls: seq<Url>
    var current: nat              // current_url
    var start: nat                // start_url

    /** get_init_url: the first wanted URL. */
    method GetInitUrl(isUpload: bool) returns (url: Option<Url>)
      modifies this
      ensures url.None? <==> WantedUrls(isUpload, urls) == []
      ensures url.Some? ==> current < |urls| && url.value == urls[current] && start == current
      ensures url.Some? ==> current == WantedUrls(isUpload, urls)[0]
      ensures url.None? <==> forall u <- urls :: u.upload != isUpload
      ensures url.Some? ==> url.value.upload == isUpload && forall i :: 0 <= i < current ==> urls[i].upload != isUpload
    {
      hide WantedUrls;
      if urls == [] {
        NoneWanted(isUpload, urls);
        return None;
      }
      current := 0;
      start := current;
      while true
        invariant start == 0 && current < |urls|
        invariant forall i :: 0 <= i < current ==> !Wanted(isUpload, urls[i])
        decreases |urls| - current
      {
        if !Wanted(isUpload, urls[current]) {
          current := Next(current, |urls|);
          if current == start {
            NoneWanted(isUpload, urls);
            return None;
          }
        } else {
          start := current;
          FirstWanted(isUpload, urls, current);
          return Some(urls[current]);
        }
      }
    }

    /** get_next_url: the next wanted URL after the current one; none, and back at the start, when
        all have been tried. */
    method GetNextUrl(isUpload: bool) returns (url: Option<Url>)
      requires urls != [] ==> current < |urls| && start < |urls| && start <= current
      requires forall i :: 0 <= i < start && i < |urls| ==> !Wanted(isUpload, urls[i])
      modifies this`current
      ensures url.None? ==> (urls != [] ==> current == start) && forall i :: old(current) < i < |urls| ==>
              !Wanted(isUpload, urls[i])
      ensures url.Some? ==>
              old(current) < current < |urls| && url.value == urls[current] && Wanted(isUpload, urls[current])
      ensures url.Some? ==> forall i :: old(current) < i < current ==> !Wanted(isUpload, urls[i])
      ensures url.Some? ==> url.value.upload == isUpload
    {
      assert forall u :: Wanted(isUpload, u) <==> u.upload == isUpload;
      hide Next, Wanted;
      if urls == [] { return None; }
      ghost var wrapped := false;
      while true
        invariant current < |urls|
        invariant if wrapped then current < start else old(current) <= current
        invariant forall i :: old(current) < i < |urls| && (wrapped || i <= current) ==> !Wanted(isUpload, urls[i])
        decreases !wrapped, |urls| - current
      {
        if current + 1 == |urls| { wrapped := true; }
        current := Next(current, |urls|);
        if current == start { return None; }
        if Wanted(isUpload, urls[current]) { return Some(urls[current]); }
      }
    }

    /** A whole cycle, from the current URL until there is no next one: it tries every wanted URL
        once, in order, and ends where it began, ready for the next cycle. */
    method TryAll(isUpload: bool) returns (tried: seq<nat>)
      requires WantedUrls(isUpload, urls) != [] && start == current == WantedUrls(isUpload, urls)[0]
      modifies this`current
      ensures tried == WantedUrls(isUpload, urls)
      ensures start == current == WantedUrls(isUpload, urls)[0]
    {
      NoneBefore(isUpload, urls);
      hide WantedUpTo, Wanted;
      tried := [current];
      while true
        invariant start <= current < |urls|
        invariant tried == WantedUpTo(isUpload, urls, current + 1)
        decreases |urls| - current
      {
        ghost var was := current;
        var url := GetNextUrl(isUpload);
        if url.None? {
          WantedGap(isUpload, urls, was + 1, |urls|);
          return;
        }
        WantedGap(isUpload, urls, was + 1, current);
        WantedPush(isUpload, urls, current);
        tried := tried + [current];
      }
    }

    /** The first cycle of a transfer, and the next one. */
    method TwoCycles(isUpload: bool) returns (first: seq<nat>, second: seq<nat>)
      modifies this
      ensures first == second == WantedUrls(isUpload, urls) && OnceEach(isUpload, urls, first)
    {
      WantedOnce(isUpload, urls);
      var url := GetInitUrl(isUpload);
      if url.None? { return [], []; }
      first := TryAll(isUpload);
      second := TryAll(isUpload);
    }
  }

  /** The positions of all URLs of the kind, once each, in order. */
  ghost predicate OnceEach(isUpload: bool, urls: seq<Url>, tried: seq<nat>) {
    && (forall i: nat :: i in tried <==> i < |urls| && urls[i].upload == isUpload)
    && (forall j, k :: 0 <= j < k < |tried| ==> tried[j] < tried[k])
  }

  lemma WantedOnce(isUpload: bool, urls: seq<Url>)
    ensures OnceEach(isUpload, urls, WantedUrls(isUpload, urls))
  {
    WantedIs(isUpload, urls, |urls|);
  }

  lemma WantedPush(isUpload: bool, urls: seq<Url>, n: nat)
    requires n < |urls| && Wanted(isUpload, urls[n])
    ensures WantedUpTo(isUpload, urls, n + 1) == WantedUpTo(isUpload, urls, n) + [n]
  {
  }

  lemma NoneBefore(isUpload: bool, urls: seq<Url>)
    requires WantedUrls(isUpload, urls) != []
    ensures var k := WantedUrls(isUpload, urls)[0];
            k < |urls| && (forall i :: 0 <= i < k ==> !Wanted(isUpload, urls[i]))
                && WantedUpTo(isUpload, urls, k + 1) == [k]
  {
    WantedIs(isUpload, urls, |urls|);
    var w := WantedUrls(isUpload, urls);
    assert w[0] in w;
    forall i: nat | i < |urls| && Wanted(isUpload, urls[i]) ensures w[0] <= i {
      assert i in w;
      var j :| 0 <= j < |w| && w[j] == i;
    }
    WantedGap(isUpload, urls, 0, w[0]);
  }

  lemma FirstWanted(isUpload: bool, urls: seq<Url>, k: nat)
    requires k < |urls| && Wanted(isUpload, urls[k]) && forall i :: 0 <= i < k ==> !Wanted(isUpload, urls[i])
    ensures WantedUrls(isUpload, urls) != [] && WantedUrls(isUpload, urls)[0] == k
  {
    WantedIs(isUpload, urls, |urls|);
    WantedIs(isUpload, urls, k);
    var w := WantedUrls(isUpload, urls);
    assert k in w;
    assert w[0] in w;
    var j :| 0 <= j < |w| && w[j] == k;
  }
}
