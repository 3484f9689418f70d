/**
 * The three read-only queries. The two deposit listings are prefix range
 * scans in ascending order of the remaining key component; the bid query is
 * a point lookup. None of them can change the state: they take it as a value.
 */
module Queries {
  import opened Wrappers
  import opened Storage
  import opened KeyOrder

  /** The cw20 records under owner `address`, keyed by cw20 contract. */
  function Cw20Prefix(m: map<Cw20Key, Cw20Deposits>, address: string): (p: map<string, Cw20Deposits>)
    ensures forall c :: c in p <==> (address, c) in m
    ensures forall c :: c in p ==> p[c] == m[(address, c)]
  {
    map k | k in m.Keys && k.0 == address :: k.1 := m[k]
  }

  /** The NFT records of owner `address` in cw721 `contract`, keyed by token id. */
  function Cw721Prefix(m: map<Cw721Key, Cw721Deposits>, contract: string, address: string): (p: map<string, Cw721Deposits>)
    ensures forall t :: t in p <==> (contract, address, t) in m
    ensures forall t :: t in p ==> p[t] == m[(contract, address, t)]
  {
    map k | k in m.Keys && k.0 == contract && k.1 == address :: k.2 := m[k]
  }

  /**
   * `r` lists every cw20 custody record of `address`, each paired with its
   * cw20 contract, in ascending contract order.
   */
  ghost predicate IsCw20Listing(s: State, address: string, r: seq<(string, Cw20Deposits)>)
  {
    && Ascending(r)
    && (forall c :: c in KeysOf(r) <==> (address, c) in s.cw20Deposits)
    && (forall i :: 0 <= i < |r| ==>
          (address, r[i].0) in s.cw20Deposits && r[i].1 == s.cw20Deposits[(address, r[i].0)])
  }

  /**
   * `r` lists every NFT custody record of `address` in cw721 `contract`,
   * each paired with its token id, in ascending token-id order.
   */
  ghost predicate IsCw721Listing(s: State, address: string, contract: string, r: seq<(string, Cw721Deposits)>)
  {
    && Ascending(r)
    && (forall t :: t in KeysOf(r) <==> (contract, address, t) in s.cw721Deposits)
    && (forall i :: 0 <= i < |r| ==>
          (contract, address, r[i].0) in s.cw721Deposits && r[i].1 == s.cw721Deposits[(contract, address, r[i].0)])
  }

  method QueryCw20Deposits(s: State, address: string) returns (deposits: seq<(string, Cw20Deposits)>)
    ensures IsCw20Listing(s, address, deposits)
  {
    var p := Cw20Prefix(s.cw20Deposits, address);
    deposits := RangeAscending(p);
  }

  method QueryCw721Deposits(s: State, address: string, contract: string) returns (deposits: seq<(string, Cw721Deposits)>)
    ensures IsCw721Listing(s, address, contract, deposits)
  {
    var p := Cw721Prefix(s.cw721Deposits, contract, address);
    deposits := RangeAscending(p);
  }

  /** There is only one cw20 listing of an owner: the query's answer is fully determined by the state. */
  lemma Cw20ListingUnique(s: State, address: string, a: seq<(string, Cw20Deposits)>, b: seq<(string, Cw20Deposits)>)
    requires IsCw20Listing(s, address, a) && IsCw20Listing(s, address, b)
    ensures a == b
  {
    var p := Cw20Prefix(s.cw20Deposits, address);
    assert KeysOf(a) == KeysOf(b);
    AscendingListingUnique(a, b, p);
  }

  /** There is only one NFT listing of an owner in a collection. */
  lemma Cw721ListingUnique(s: State, address: string, contract: string,
                           a: seq<(string, Cw721Deposits)>, b: seq<(string, Cw721Deposits)>)
    requires IsCw721Listing(s, address, contract, a) && IsCw721Listing(s, address, contract, b)
    ensures a == b
  {
    var p := Cw721Prefix(s.cw721Deposits, contract, address);
    assert KeysOf(a) == KeysOf(b);
    AscendingListingUnique(a, b, p);
  }

  /** The bid on (cw721Contract, tokenId), if any. */
  function QueryBids(s: State, cw721Contract: string, tokenId: string): (bids: Option<Bid>)
    ensures bids.Some? <==> (cw721Contract, tokenId) in s.bids
    ensures bids.Some? ==> bids.value == s.bids[(cw721Contract, tokenId)]
  {
    if (cw721Contract, tokenId) in s.bids then Some(s.bids[(cw721Contract, tokenId)]) else None
  }
}
