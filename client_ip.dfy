/** `get_client_ip` (`utils/ip.py`): the first hop of `X-Forwarded-For`, else the peer address. */
module ClientIp {
  import opened Wrappers
  import opened PyStr

  const ForwardedFor := "HTTP_X_FORWARDED_FOR"
  const RemoteAddr := "REMOTE_ADDR"

  /** `request.META.get(key)`. */
  function MetaGet(meta: map<string, string>, key: string): Option<string> {
    if key in meta then Some(meta[key]) else None
  }

  /**
   * `get_client_ip`: a non-empty forwarded header gives its text before the
   * first comma, stripped; otherwise `REMOTE_ADDR` is returned as it is, or
   * `None` when it is absent too.
   */
  function GetClientIp(meta: map<string, string>): (r: Option<string>)
    ensures ForwardedFor in meta && meta[ForwardedFor] != "" ==>
      && r.Some?
      && ',' !in r.value && Trimmed(r.value)
      && |r.value| <= |meta[ForwardedFor]|
    ensures ForwardedFor in meta && meta[ForwardedFor] != "" && ',' !in meta[ForwardedFor] ==>
      r == Some(Strip(meta[ForwardedFor]))
    ensures !(ForwardedFor in meta && meta[ForwardedFor] != "") ==> r == MetaGet(meta, RemoteAddr)
  {
    var forwarded := MetaGet(meta, ForwardedFor);
    if forwarded.Some? && forwarded.value != "" then
      var hop := BeforeFirst(forwarded.value, ',');
      BeforeFirstWithoutComma(forwarded.value);
      Some(Strip(hop))
    else MetaGet(meta, RemoteAddr)
  }

  /** A header with no comma is its own first hop. */
  lemma BeforeFirstWithoutComma(h: string)
    ensures ',' !in h ==> BeforeFirst(h, ',') == h
  {
  }

  /** Splitting at the first comma recovers a first hop that has no comma. */
  lemma {:induction false} BeforeFirstOfJoined(first: string, rest: string)
    requires ',' !in first
    ensures BeforeFirst(first + "," + rest, ',') == first
  {
    if first != [] {
      assert (first + "," + rest)[1..] == first[1..] + "," + rest;
      BeforeFirstOfJoined(first[1..], rest);
    }
  }

  /**
   * For a header `first, rest` whose first hop has no comma, the client is
   * that hop without its surrounding whitespace, whatever follows and
   * whatever the peer address.
   */
  lemma FirstHopWins(meta: map<string, string>, first: string, rest: string)
    requires ',' !in first
    requires ForwardedFor in meta && meta[ForwardedFor] == first + "," + rest
    ensures GetClientIp(meta) == Some(Strip(first))
  {
    BeforeFirstOfJoined(first, rest);
  }

  /** A single-hop header, the common case, gives that address without its surrounding whitespace. */
  lemma SingleHop(meta: map<string, string>, h: string)
    requires MetaGet(meta, ForwardedFor) == Some(h) && h != "" && ',' !in h
    ensures GetClientIp(meta) == Some(Strip(h))
  {
    BeforeFirstWithoutComma(h);
  }

  /** A header of whitespace only, or one that starts with a comma, gives the empty address. */
  lemma BlankFirstHop(meta: map<string, string>)
    requires ForwardedFor in meta && meta[ForwardedFor] != ""
    requires AllSpace(meta[ForwardedFor]) || meta[ForwardedFor][0] == ','
    ensures GetClientIp(meta) == Some("")
  {
    var h := meta[ForwardedFor];
    if h[0] == ',' {
      assert BeforeFirst(h, ',') == "";
    } else {
      assert BeforeFirst(h, ',') == h;
      StripAllSpace(h);
    }
  }
}
