/**
  The token catalog of the TradeHub public client (tradehub/public_client.py).
  On construction the client fetches the token records once and caches their
  `denom` identifiers in `tokens`; `get_token` answers a by-denom lookup that
  first consults that cache and then scans a freshly fetched record list.

  The network fetch `get_tokens` is not modelled: the records it would return
  are passed in as `fetched`.
*/
module Tradehub {
  import opened Wrappers
  import opened JsonValues
  import Tradescan

  /** Default argument of `PublicClient.__init__` and the timeout it uses. */
  const DefaultApiUrl: string := "https://tradescan.switcheo.org"
  const RequestTimeout: int := 30

  /** A token record as returned by `/get_tokens`: its `denom` and the rest of its fields. */
  datatype TokenRecord = TokenRecord(denom: string, fields: map<string, Json>)

  // ---------------------------------------------------------------------------
  // Lower-casing: `str.lower()` on ASCII letters
  // ---------------------------------------------------------------------------

  function LowerChar(c: char): char {
    if 'A' <= c <= 'Z' then (c as int - 'A' as int + 'a' as int) as char else c
  }

  /** Python's `s.lower()`, restricted to ASCII letters. */
  function Lower(s: string): (r: string)
    ensures |r| == |s|
    ensures forall i :: 0 <= i < |s| ==> r[i] == LowerChar(s[i])
  {
    seq(|s|, i requires 0 <= i < |s| => LowerChar(s[i]))
  }

  /** A lower-cased string contains no upper-case ASCII letter. */
  lemma LowerHasNoUpper(s: string)
    ensures forall i :: 0 <= i < |s| ==> !('A' <= Lower(s)[i] <= 'Z')
  {
  }

  /** Lower-casing twice is lower-casing once. */
  lemma LowerIdempotent(s: string)
    ensures Lower(Lower(s)) == Lower(s)
  {
    assert forall i :: 0 <= i < |s| ==> LowerChar(LowerChar(s[i])) == LowerChar(s[i]);
  }

  // ---------------------------------------------------------------------------
  // The denom list and the first-match search
  // ---------------------------------------------------------------------------

  /**
    The list of denoms of a record list, in order: same length, and element
    `i` is the denom of record `i`.
  */
  function Denoms(records: seq<TokenRecord>): (ds: seq<string>)
    ensures |ds| == |records|
    ensures forall i :: 0 <= i < |records| ==> ds[i] == records[i].denom
  {
    if records == [] then [] else [records[0].denom] + Denoms(records[1..])
  }

  /** A denom occurs in the denom list exactly when some record carries it. */
  lemma DenomsMembership(records: seq<TokenRecord>, denom: string)
    ensures denom in Denoms(records) <==> exists i :: 0 <= i < |records| && records[i].denom == denom
  {
    if denom in Denoms(records) {
      var i :| 0 <= i < |Denoms(records)| && Denoms(records)[i] == denom;
      assert records[i].denom == denom;
    }
  }

  /** The denom list of a concatenation is the concatenation of the denom lists. */
  lemma {:induction false} DenomsAppend(a: seq<TokenRecord>, b: seq<TokenRecord>)
    ensures Denoms(a + b) == Denoms(a) + Denoms(b)
  {
    if a == [] {
      assert a + b == b;
    } else {
      assert (a + b)[1..] == a[1..] + b;
      DenomsAppend(a[1..], b);
    }
  }

  /** True when `i` is the position of the first record whose denom is `denom`. */
  ghost predicate IsFirstMatch(records: seq<TokenRecord>, denom: string, i: int) {
    && 0 <= i < |records|
    && records[i].denom == denom
    && forall j :: 0 <= j < i ==> records[j].denom != denom
  }

  /**
    The position of the first record of `records` whose denom is `denom`, or
    `None` when no record carries it.
  */
  function FirstIndex(records: seq<TokenRecord>, denom: string): (r: Option<nat>)
    ensures r.Some? ==> IsFirstMatch(records, denom, r.value)
    ensures r.None? <==> forall j :: 0 <= j < |records| ==> records[j].denom != denom
  {
    if records == [] then None
    else if records[0].denom == denom then Some(0)
    else
      match FirstIndex(records[1..], denom)
      case None => None
      case Some(i) => Some(i + 1)
  }

  /**
    What `get_token` answers for `token` given the cached denom list `cache`
    and the records `fetched` it scans.
  */
  function Lookup(cache: seq<string>, fetched: seq<TokenRecord>, token: Option<string>): (r: Option<TokenRecord>)
    ensures token.None? ==> r.None?
    ensures token.Some? && Lower(token.value) !in cache ==> r.None?
    ensures r.Some? ==> token.Some? && Lower(token.value) in cache
    ensures r.Some? ==> r.value in fetched && r.value.denom == Lower(token.value)
    ensures r.Some? ==> exists i :: IsFirstMatch(fetched, Lower(token.value), i) && fetched[i] == r.value
    ensures token.Some? && Lower(token.value) in cache && r.None? ==>
              forall j :: 0 <= j < |fetched| ==> fetched[j].denom != Lower(token.value)
  {
    if token.Some? && Lower(token.value) in cache then
      match FirstIndex(fetched, Lower(token.value))
      case None => None
      case Some(i) => Some(fetched[i])
    else
      None
  }

  /**
    When the cache is the denom list of the records being scanned, a token
    whose lower-cased form is cached is always found, and one that is not is
    never found.
  */
  lemma LookupComplete(fetched: seq<TokenRecord>, token: string)
    ensures Lookup(Denoms(fetched), fetched, Some(token)).Some? <==> Lower(token) in Denoms(fetched)
  {
    var d := Lower(token);
    if d in Denoms(fetched) {
      DenomsMembership(fetched, d);
      var i :| 0 <= i < |fetched| && fetched[i].denom == d;
      assert FirstIndex(fetched, d).Some?;
    }
  }

  /** Only the lower-cased query matters: `get_token(t) == get_token(t.lower())`. */
  lemma LookupCaseInsensitive(cache: seq<string>, fetched: seq<TokenRecord>, token: string)
    ensures Lookup(cache, fetched, Some(token)) == Lookup(cache, fetched, Some(Lower(token)))
  {
    LowerIdempotent(token);
  }

  /**
    A record found is the first one carrying its denom: a record carrying
    the same denom later in the list is never returned instead.
  */
  lemma LookupReturnsFirst(cache: seq<string>, fetched: seq<TokenRecord>, token: string, k: int)
    requires 0 <= k < |fetched| && fetched[k].denom == Lower(token)
    requires Lookup(cache, fetched, Some(token)).Some?
    ensures exists i :: 0 <= i <= k && Lookup(cache, fetched, Some(token)).value == fetched[i]
  {
    var i :| IsFirstMatch(fetched, Lower(token), i) && fetched[i] == Lookup(cache, fetched, Some(token)).value;
    assert i <= k;
  }

  /**
    A catalog holding `swth`: the query `SWTH` finds its record and an
    unknown denom gives `None`, not an error.
  */
  lemma LookupExample(swth: TokenRecord, other: TokenRecord)
    requires swth.denom == "swth" && other.denom == "eth"
    ensures Lookup(Denoms([other, swth]), [other, swth], Some("SWTH")) == Some(swth)
    ensures Lookup(Denoms([other, swth]), [other, swth], Some("doesnotexist")).None?
  {
    assert Lower("SWTH") == "swth";
    assert Lower("doesnotexist") == "doesnotexist";
    assert Denoms([other, swth]) == ["eth", "swth"];
  }

  // ---------------------------------------------------------------------------
  // The client
  // ---------------------------------------------------------------------------

  class PublicClient {
    var request: Tradescan.Request
    var tokens: seq<string>

    /**
      `PublicClient.__init__`: a request object on `apiUrl` (by default the
      Tradescan URL) with a 30-unit timeout, and the cached denom list of the
      records fetched once.
    */
    constructor (fetched: seq<TokenRecord>, apiUrl: string := DefaultApiUrl)
      ensures fresh(request) && request.Valid()
      ensures request.url == Tradescan.RStripSlash(apiUrl) && request.timeout == RequestTimeout
      ensures tokens == Denoms(fetched)
    {
      request := new Tradescan.Request(apiUrl, RequestTimeout);
      new;
      tokens := GetTokenList(fetched);
    }

    /**
      `get_token_list`: appends the denom of every fetched record, in order.
    */
    method GetTokenList(fetched: seq<TokenRecord>) returns (tokenList: seq<string>)
      ensures tokenList == Denoms(fetched)
    {
      tokenList := [];
      for k := 0 to |fetched|
        invariant |tokenList| == k
        invariant forall j :: 0 <= j < k ==> tokenList[j] == fetched[j].denom
      {
        tokenList := tokenList + [fetched[k].denom];
      }
    }

    /**
      `get_token`: `None` for a missing query or one whose lower-cased form is
      not cached; otherwise the first fetched record with that denom, or
      `None` when the scan finds none.
    */
    method GetToken(token: Option<string>, fetched: seq<TokenRecord>) returns (r: Option<TokenRecord>)
      ensures r == Lookup(tokens, fetched, token)
    {
      r := None;
      if token.Some? && Lower(token.value) in tokens {
        var denom := Lower(token.value);
        for k := 0 to |fetched|
          invariant forall j :: 0 <= j < k ==> fetched[j].denom != denom
        {
          if fetched[k].denom == denom {
            assert IsFirstMatch(fetched, denom, k);
            r := Some(fetched[k]);
            return;
          }
        }
      }
    }
  }
}
