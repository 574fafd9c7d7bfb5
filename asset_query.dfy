/** `OpenSeaAssetQuery`: the query naming one asset, by contract address and, optionally,
    token id. Its derived serialisation always writes the address and writes the id only when
    it is set. */
module AssetQueryRecord {
  import opened Wrappers
  import opened Scalars
  import opened QueryPairs
  import opened OpenSeaQuery

  datatype OpenSeaAssetQuery = OpenSeaAssetQuery(tokenAddress: string, tokenId: Option<u32>)

  /** `OpenSeaAssetQuery::new`: the address alone. */
  function New(tokenAddress: string): (q: OpenSeaAssetQuery)
    ensures q.tokenAddress == tokenAddress && q.tokenId.None?
  {
    OpenSeaAssetQuery(tokenAddress, None)
  }

  /** `OpenSeaAssetQuery::with_token_id`: the address and the token id. */
  function WithTokenId(tokenAddress: string, tokenId: u32): (q: OpenSeaAssetQuery)
    ensures q.tokenAddress == tokenAddress && q.tokenId == Some(tokenId)
  {
    OpenSeaAssetQuery(tokenAddress, Some(tokenId))
  }

  /** The conversion from anything string-like, which goes through `new`. */
  function From(tokenAddress: string): (q: OpenSeaAssetQuery)
    ensures q.tokenAddress == tokenAddress && q.tokenId.None?
  {
    New(tokenAddress)
  }

  /** The derived `Default`: the empty address and no token id. */
  function Default(): (q: OpenSeaAssetQuery)
    ensures q.tokenAddress == "" && q.tokenId.None?
  {
    OpenSeaAssetQuery("", None)
  }

  function Fields(q: OpenSeaAssetQuery): seq<Field> {
    [Required("token_address", q.tokenAddress), Optional("token_id", q.tokenId, RenderU32)]
  }

  /** The query pairs: `token_address` always comes first, and `token_id` follows exactly
      when it is set, in decimal. */
  function Pairs(q: OpenSeaAssetQuery): (ps: seq<Pair>)
    ensures |ps| == (if q.tokenId.Some? then 2 else 1)
    ensures ps[0] == ("token_address", q.tokenAddress)
    ensures q.tokenId.Some? ==> ps[1] == ("token_id", RenderU32(q.tokenId.value))
  {
    var fs := Fields(q);
    PresentFrom(fs, 1);
    PresentFrom(fs, 0);
    assert fs[2..] == [] && fs[0..] == fs;
    Present(fs)
  }

  /** What `From` and `new` give serialises to the address alone. */
  lemma {:induction false} NewPairs(tokenAddress: string)
    ensures Pairs(New(tokenAddress)) == [("token_address", tokenAddress)]
    ensures From(tokenAddress) == New(tokenAddress)
  {
  }

  /** The serialisation loses nothing: distinct queries give distinct pairs. */
  lemma {:induction false} PairsInjective(q: OpenSeaAssetQuery, q': OpenSeaAssetQuery)
    requires Pairs(q) == Pairs(q')
    ensures q == q'
  {
    RenderInjective();
    assert q.tokenAddress == q'.tokenAddress by {
      assert Pairs(q)[0] == Pairs(q')[0];
    }
    if q.tokenId.Some? {
      assert Pairs(q)[1] == Pairs(q')[1];
    }
  }
}
