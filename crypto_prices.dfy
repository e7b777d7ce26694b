/** utils/cryptoPrices.js: the symbol-to-CoinGecko-id table, the price
    lookup and the way a price response is merged into the prices of the
    requested symbols. The HTTP request is a parameter; prices are copied,
    never computed. */
module CryptoPrices {
  import opened Base
  import opened Text

  /** `COIN_ID_MAPPING`: lower-case symbol or name to CoinGecko id. The
      table is written in four parts of 24 entries with disjoint keys, so
      that facts about it can be checked part by part. */
  const CoinIdMapping: map<string, string> := MappingPart1 + MappingPart2 + MappingPart3 + MappingPart4

  const MappingPart1: map<string, string> := map[
      "bitcoin" := "bitcoin", "btc" := "bitcoin", "ethereum" := "ethereum",
      "eth" := "ethereum", "usdt" := "tether", "tether" := "tether",
      "usdc" := "usd-coin", "bnb" := "binancecoin", "binance" := "binancecoin",
      "ada" := "cardano", "cardano" := "cardano", "sol" := "solana",
      "solana" := "solana", "xrp" := "ripple", "ripple" := "ripple",
      "dot" := "polkadot", "polkadot" := "polkadot", "avax" := "avalanche-2",
      "avalanche" := "avalanche-2", "matic" := "matic-network", "polygon" := "matic-network",
      "link" := "chainlink", "chainlink" := "chainlink", "ltc" := "litecoin"
    ]

  const MappingPart2: map<string, string> := map[
      "litecoin" := "litecoin", "bch" := "bitcoin-cash", "bitcoin-cash" := "bitcoin-cash",
      "uni" := "uniswap", "uniswap" := "uniswap", "atom" := "cosmos",
      "cosmos" := "cosmos", "near" := "near", "ftm" := "fantom",
      "fantom" := "fantom", "algo" := "algorand", "algorand" := "algorand",
      "icp" := "internet-computer", "internet-computer" := "internet-computer", "vet" := "vechain",
      "vechain" := "vechain", "fil" := "filecoin", "filecoin" := "filecoin",
      "trx" := "tron", "tron" := "tron", "etc" := "ethereum-classic",
      "ethereum-classic" := "ethereum-classic", "xmr" := "monero", "monero" := "monero"
    ]

  const MappingPart3: map<string, string> := map[
      "xlm" := "stellar", "stellar" := "stellar", "aave" := "aave",
      "mkr" := "maker", "maker" := "maker", "comp" := "compound-governance-token",
      "compound" := "compound-governance-token", "snx" := "havven", "synthetix" := "havven",
      "crv" := "curve-dao-token", "curve" := "curve-dao-token", "sushi" := "sushi",
      "sushiswap" := "sushi", "1inch" := "1inch", "yfi" := "yearn-finance",
      "yearn" := "yearn-finance", "lrc" := "loopring", "loopring" := "loopring",
      "bat" := "basic-attention-token", "basic-attention-token" := "basic-attention-token", "zrx" := "0x",
      "omg" := "omisego", "omisego" := "omisego", "zil" := "zilliqa"
    ]

  const MappingPart4: map<string, string> := map[
      "zilliqa" := "zilliqa", "ren" := "republic-protocol", "republic" := "republic-protocol",
      "knc" := "kyber-network-crystal", "kyber" := "kyber-network-crystal", "storj" := "storj",
      "gnt" := "golem", "golem" := "golem", "mana" := "decentraland",
      "decentraland" := "decentraland", "enj" := "enjincoin", "enjin" := "enjincoin",
      "sand" := "the-sandbox", "sandbox" := "the-sandbox", "axs" := "axie-infinity",
      "axie" := "axie-infinity", "gala" := "gala", "chr" := "chromaway",
      "chromia" := "chromaway", "alice" := "my-neighbor-alice", "tlm" := "alien-worlds",
      "alien-worlds" := "alien-worlds", "slp" := "smooth-love-potion", "smooth-love-potion" := "smooth-love-potion"
    ]

  /** No key is empty or starts with a space, and no id is empty. */
  predicate WellFormedTable(m: map<string, string>) {
    forall k :: k in m ==> k != "" && k[0] != ' ' && m[k] != ""
  }

  lemma Part1WellFormed() ensures WellFormedTable(MappingPart1) {}
  lemma Part2WellFormed() ensures WellFormedTable(MappingPart2) {}
  lemma Part3WellFormed() ensures WellFormedTable(MappingPart3) {}
  lemma Part4WellFormed() ensures WellFormedTable(MappingPart4) {}

  lemma MappingWellFormed()
    ensures WellFormedTable(CoinIdMapping)
  {
    Part1WellFormed();
    Part2WellFormed();
    Part3WellFormed();
    Part4WellFormed();
    forall k | k in CoinIdMapping
      ensures k != "" && k[0] != ' ' && CoinIdMapping[k] != ""
    {
      if k in MappingPart4 {
      } else if k in MappingPart3 {
      } else if k in MappingPart2 {
      }
    }
  }

  /** `symbol.toLowerCase().trim()`. */
  function NormalizeSymbol(symbol: string): string {
    Trim(ToLower(symbol))
  }

  /** `COIN_ID_MAPPING[normalizedSymbol] || normalizedSymbol`, with the
      table `COIN_ID_MAPPING` passed as `table`: the table id when there is
      a non-empty one, else the normalised symbol. The id is empty only for
      a blank symbol, and always is for one when the table has no empty
      key. */
  function CoinIdOf(table: map<string, string>, symbol: string): (id: string)
    ensures var n := NormalizeSymbol(symbol);
            (n in table && id == table[n] != "") || (id == n && (n !in table || table[n] == ""))
    ensures id == "" ==> NormalizeSymbol(symbol) == ""
    ensures "" !in table ==> (id == "" <==> NormalizeSymbol(symbol) == "")
  {
    var n := NormalizeSymbol(symbol);
    if n in table && table[n] != "" then table[n] else n
  }

  /** `coinSymbols.map(...)`: the id of every symbol, in order. */
  function MappedIds(table: map<string, string>, symbols: seq<string>): seq<string> {
    seq(|symbols|, i requires 0 <= i < |symbols| => CoinIdOf(table, symbols[i]))
  }

  /** `.filter(Boolean)` on strings: the non-empty ones, in order. */
  function NonEmpty(ids: seq<string>): (r: seq<string>)
    ensures forall i :: 0 <= i < |r| ==> r[i] != ""
    ensures forall id :: id in r <==> id != "" && id in ids
  {
    if |ids| == 0 then []
    else
      var rest := NonEmpty(ids[1..]);
      assert ids == [ids[0]] + ids[1..];
      if ids[0] == "" then rest else [ids[0]] + rest
  }

  /** The mapped ids of the symbols without the empty ones. */
  function CoinIdList(table: map<string, string>, symbols: seq<string>): seq<string> {
    NonEmpty(MappedIds(table, symbols))
  }

  /** The `ids` parameter of the request: the ids joined with commas. */
  function CoinIds(table: map<string, string>, symbols: seq<string>): string {
    Join(CoinIdList(table, symbols), ',')
  }

  /** The id list is empty, and no request is made, exactly when every
      symbol is blank (for a table without an empty key; with one, a blank
      symbol can still produce an id). */
  lemma NoIdsIffBlankSymbols(table: map<string, string>, symbols: seq<string>)
    requires "" !in table
    ensures CoinIds(table, symbols) == "" <==> forall i :: 0 <= i < |symbols| ==> NormalizeSymbol(symbols[i]) == ""
  {
    var ids := CoinIdList(table, symbols);
    JoinEmptyIff(ids, ',');
    var mapped := MappedIds(table, symbols);
    if ids != [] {
      assert ids[0] in mapped;
      var i :| 0 <= i < |mapped| && mapped[i] == ids[0];
      assert CoinIdOf(table, symbols[i]) != "";
    } else {
      forall i | 0 <= i < |symbols|
        ensures NormalizeSymbol(symbols[i]) == ""
      {
        assert mapped[i] !in ids;
        assert CoinIdOf(table, symbols[i]) == mapped[i];
      }
    }
  }

  /** One coin of the CoinGecko answer: `usd` and `usd_24h_change`. */
  datatype Quote = Quote(usd: Option<real>, change: Option<real>)

  /** `{ price, change24h, lastUpdated }`. */
  datatype PriceEntry = PriceEntry(price: Option<real>, change24h: real, lastUpdated: string)

  /** The entry built from a quote; a missing change becomes 0. */
  function EntryOf(q: Quote, now: string): PriceEntry {
    PriceEntry(q.usd, q.change.GetOr(0.0), now)
  }

  /** `coinSymbols.some(s => s.toLowerCase() === k)`. */
  predicate Requested(symbols: seq<string>, k: string) {
    exists i :: 0 <= i < |symbols| && ToLower(symbols[i]) == k
  }

  lemma RequestedCons(symbols: seq<string>)
    requires |symbols| > 0
    ensures forall k :: Requested(symbols, k) <==> ToLower(symbols[0]) == k || Requested(symbols[1..], k)
  {
    forall k | Requested(symbols, k) && ToLower(symbols[0]) != k
      ensures Requested(symbols[1..], k)
    {
      var i :| 0 <= i < |symbols| && ToLower(symbols[i]) == k;
      assert symbols[1..][i - 1] == symbols[i];
    }
    forall k | Requested(symbols[1..], k)
      ensures Requested(symbols, k)
    {
      var i :| 0 <= i < |symbols[1..]| && ToLower(symbols[1..][i]) == k;
      assert symbols[i + 1] == symbols[1..][i];
    }
  }

  /** What the loop over the table adds: an entry under every requested
      key of `table` whose id the answer contains. */
  function TablePrices(table: map<string, string>, symbols: seq<string>, data: map<string, Quote>, now: string)
    : map<string, PriceEntry>
  {
    map k | k in table && table[k] in data && Requested(symbols, k) :: EntryOf(data[table[k]], now)
  }

  /** One step of the direct-match pass: the lower-cased symbol gets the
      answer's entry under that name unless it already has one. */
  function DirectStep(p: map<string, PriceEntry>, symbol: string, data: map<string, Quote>, now: string)
    : map<string, PriceEntry>
  {
    var n := ToLower(symbol);
    if n in data && n !in p then p[n := EntryOf(data[n], now)] else p
  }

  /** The direct-match pass over the symbols, in order. Entries already
      present are never overwritten; every new key is a requested symbol
      the answer names directly. */
  function WithDirect(p: map<string, PriceEntry>, symbols: seq<string>, data: map<string, Quote>, now: string)
    : (r: map<string, PriceEntry>)
    ensures forall k :: k in r <==> k in p || (k in data && Requested(symbols, k))
    ensures forall k :: k in p ==> r[k] == p[k]
    ensures forall k :: k in r && k !in p ==> r[k] == EntryOf(data[k], now)
    decreases |symbols|
  {
    if |symbols| == 0 then p
    else
      RequestedCons(symbols);
      WithDirect(DirectStep(p, symbols[0], data, now), symbols[1..], data, now)
  }

  /** What `fetchCryptoPrices(symbols)` returns, with `COIN_ID_MAPPING`
      passed as `table` and `fetch(ids)` the parsed CoinGecko answer
      (`None` when the request throws or answers with a non-2xx status). */
  function FetchedPrices(table: map<string, string>, symbols: seq<string>,
                         fetch: string -> Option<map<string, Quote>>, now: string)
    : map<string, PriceEntry>
  {
    if |symbols| == 0 || CoinIds(table, symbols) == "" then map[]
    else
      match fetch(CoinIds(table, symbols))
      case None => map[]
      case Some(data) => WithDirect(TablePrices(table, symbols, data, now), symbols, data, now)
  }

  /** Every key of the result is the lower-case form of a requested symbol. */
  lemma FetchedKeysRequested(table: map<string, string>, symbols: seq<string>,
                             fetch: string -> Option<map<string, Quote>>, now: string)
    ensures forall k :: k in FetchedPrices(table, symbols, fetch, now) ==> Requested(symbols, k)
  {
  }

  /** The answer holds the table id of `k`. */
  predicate Aliased(table: map<string, string>, k: string, data: map<string, Quote>) {
    k in table && table[k] in data
  }

  /** The table-id entries merged with the direct matches: a requested
      name is present when the answer holds its table id or the name
      itself, and its entry comes from the table id whenever that is in the
      answer, so a direct match never replaces it. */
  lemma MergedEntries(table: map<string, string>, symbols: seq<string>, data: map<string, Quote>, now: string)
    ensures var prices := WithDirect(TablePrices(table, symbols, data, now), symbols, data, now);
            forall k :: k in prices <==> Requested(symbols, k) && (Aliased(table, k, data) || k in data)
    ensures var prices := WithDirect(TablePrices(table, symbols, data, now), symbols, data, now);
            forall k :: k in prices && Aliased(table, k, data) ==> prices[k] == EntryOf(data[table[k]], now)
    ensures var prices := WithDirect(TablePrices(table, symbols, data, now), symbols, data, now);
            forall k :: k in prices && !Aliased(table, k, data) ==> prices[k] == EntryOf(data[k], now)
  {
    var alias := TablePrices(table, symbols, data, now);
    var prices := WithDirect(alias, symbols, data, now);
    forall k
      ensures k in alias <==> Aliased(table, k, data) && Requested(symbols, k)
    {
    }
    forall k | k in prices && Aliased(table, k, data)
      ensures prices[k] == EntryOf(data[table[k]], now)
    {
      assert k in alias;
    }
    forall k | k in prices && !Aliased(table, k, data)
      ensures prices[k] == EntryOf(data[k], now)
    {
      assert k !in alias;
    }
  }

  /** What a successful fetch returns: the merge above. */
  lemma FetchedEntries(table: map<string, string>, symbols: seq<string>,
                       fetch: string -> Option<map<string, Quote>>, now: string, data: map<string, Quote>)
    requires |symbols| > 0 && CoinIds(table, symbols) != "" && fetch(CoinIds(table, symbols)) == Some(data)
    ensures var prices := FetchedPrices(table, symbols, fetch, now);
            forall k :: k in prices <==> Requested(symbols, k) && (Aliased(table, k, data) || k in data)
    ensures var prices := FetchedPrices(table, symbols, fetch, now);
            forall k :: k in prices && Aliased(table, k, data) ==> prices[k] == EntryOf(data[table[k]], now)
    ensures var prices := FetchedPrices(table, symbols, fetch, now);
            forall k :: k in prices && !Aliased(table, k, data) ==> prices[k] == EntryOf(data[k], now)
  {
    assert FetchedPrices(table, symbols, fetch, now)
        == WithDirect(TablePrices(table, symbols, data, now), symbols, data, now);
    MergedEntries(table, symbols, data, now);
  }

  /** The ids are built from trimmed symbols but the answer is matched
      against the untrimmed lower-case symbol: with a table whose keys do
      not start with a space, a symbol with a leading space is sent to the
      API, yet it is reported only if the answer carries that space-led
      name itself, never through the table. */
  lemma PaddedSymbolMatchedOnlyVerbatim(table: map<string, string>, symbol: string,
                                        fetch: string -> Option<map<string, Quote>>, now: string)
    requires WellFormedTable(table)
    requires ToLower(symbol) != "" && ToLower(symbol)[0] == ' '
    ensures NormalizeSymbol(symbol) != "" ==> CoinIds(table, [symbol]) != ""
    ensures ToLower(symbol) in FetchedPrices(table, [symbol], fetch, now) ==>
              fetch(CoinIds(table, [symbol])).Some? && ToLower(symbol) in fetch(CoinIds(table, [symbol])).value
  {
    NoIdsIffBlankSymbols(table, [symbol]);
    var k := ToLower(symbol);
    assert k !in table;
    if k in FetchedPrices(table, [symbol], fetch, now) {
      var data := fetch(CoinIds(table, [symbol])).value;
      FetchedEntries(table, [symbol], fetch, now, data);
      assert !Aliased(table, k, data);
    }
  }

  /** An empty symbol list gives `{}` whatever the API would say. */
  lemma NoSymbolsNoPrices(table: map<string, string>, fetch: string -> Option<map<string, Quote>>, now: string)
    ensures FetchedPrices(table, [], fetch, now) == map[]
  {
  }

  /** `coinSymbols.some(...)` as the source writes it. */
  method AnyLowerEquals(symbols: seq<string>, k: string) returns (found: bool)
    ensures found <==> Requested(symbols, k)
  {
    var i := 0;
    while i < |symbols|
      invariant 0 <= i <= |symbols|
      invariant forall j :: 0 <= j < i ==> ToLower(symbols[j]) != k
    {
      if ToLower(symbols[i]) == k {
        return true;
      }
      i := i + 1;
    }
    return false;
  }

  /** The entries of `TablePrices` for the keys of `done` only. */
  function TablePricesOn(table: map<string, string>, done: set<string>, symbols: seq<string>,
                         data: map<string, Quote>, now: string): map<string, PriceEntry>
  {
    map k | k in done && k in table && table[k] in data && Requested(symbols, k) :: EntryOf(data[table[k]], now)
  }

  /** Visiting one more key adds its entry exactly when the answer holds its
      id and a symbol asks for it. */
  lemma TablePricesOnStep(table: map<string, string>, done: set<string>, k: string, symbols: seq<string>,
                          data: map<string, Quote>, now: string)
    requires k in table
    ensures TablePricesOn(table, done + {k}, symbols, data, now)
         == if table[k] in data && Requested(symbols, k)
            then TablePricesOn(table, done, symbols, data, now)[k := EntryOf(data[table[k]], now)]
            else TablePricesOn(table, done, symbols, data, now)
  {
  }

  /** The loop over `Object.entries(COIN_ID_MAPPING)` in
      `fetchCryptoPrices`. */
  method PricesByTable(table: map<string, string>, symbols: seq<string>, data: map<string, Quote>, now: string)
    returns (prices: map<string, PriceEntry>)
    ensures prices == TablePrices(table, symbols, data, now)
  {
    prices := map[];
    var remaining := table.Keys;
    ghost var done: set<string> := {};
    while remaining != {}
      invariant remaining <= table.Keys && done == table.Keys - remaining
      invariant prices == TablePricesOn(table, done, symbols, data, now)
      decreases |remaining|
    {
      var k :| k in remaining;
      var id := table[k];
      var wanted := AnyLowerEquals(symbols, k);
      TablePricesOnStep(table, done, k, symbols, data, now);
      if id in data && wanted {
        prices := prices[k := EntryOf(data[id], now)];
      }
      remaining := remaining - {k};
      done := done + {k};
    }
    assert done == table.Keys;
  }

  /** `fetchCryptoPrices`, with `COIN_ID_MAPPING` passed as `table`:
      `prices` is filled first by the loop over the table, then by the
      direct-match pass over the symbols. */
  method FetchCryptoPrices(table: map<string, string>, symbols: seq<string>,
                           fetch: string -> Option<map<string, Quote>>, now: string)
    returns (prices: map<string, PriceEntry>)
    ensures prices == FetchedPrices(table, symbols, fetch, now)
  {
    if |symbols| == 0 {
      return map[];
    }
    var ids := CoinIds(table, symbols);
    if ids == "" {
      return map[];
    }
    var response := fetch(ids);
    match response {
      case None =>
        prices := map[];
      case Some(data) =>
        var alias := PricesByTable(table, symbols, data, now);
        prices := AddDirectMatches(alias, symbols, data, now);
    }
  }

  /** The loop over `coinSymbols` in `fetchCryptoPrices`: a symbol whose
      lower-case form the answer names directly gets that entry, unless it
      already has one. */
  method AddDirectMatches(start: map<string, PriceEntry>, symbols: seq<string>, data: map<string, Quote>,
                          now: string)
    returns (prices: map<string, PriceEntry>)
    ensures prices == WithDirect(start, symbols, data, now)
  {
    prices := start;
    var i := 0;
    while i < |symbols|
      invariant 0 <= i <= |symbols|
      invariant WithDirect(prices, symbols[i..], data, now) == WithDirect(start, symbols, data, now)
    {
      var n := ToLower(symbols[i]);
      assert symbols[i..][1..] == symbols[i + 1..];
      if n in data && n !in prices {
        prices := prices[n := EntryOf(data[n], now)];
      }
      i := i + 1;
    }
  }

  /** `{ price, change24h, source, lastUpdated }` from `getCoinPrice`. */
  datatype CoinPrice = CoinPrice(price: Option<real>, change24h: real, source: string, lastUpdated: string)

  /** `getCoinPrice(symbol, fallbackPrice = 0)`: the API entry under the
      lower-cased symbol when there is one, else the fallback price with no
      change; a caller that passes no fallback price gets 0. */
  method GetCoinPrice(symbol: string, fallbackPrice: Option<real>, fetch: string -> Option<map<string, Quote>>, now: string)
    returns (p: CoinPrice)
    ensures var prices := FetchedPrices(CoinIdMapping, [symbol], fetch, now);
            var k := ToLower(symbol);
            (p.source == "api" <==> k in prices)
            && (k in prices ==> p == CoinPrice(prices[k].price, prices[k].change24h, "api", prices[k].lastUpdated))
            && (k !in prices ==> p == CoinPrice(Some(fallbackPrice.GetOr(0.0)), 0.0, "fallback", now))
  {
    var prices := FetchCryptoPrices(CoinIdMapping, [symbol], fetch, now);
    var k := ToLower(symbol);
    if k in prices {
      var e := prices[k];
      return CoinPrice(e.price, e.change24h, "api", e.lastUpdated);
    }
    p := CoinPrice(Some(fallbackPrice.GetOr(0.0)), 0.0, "fallback", now);
  }

  /** A coin of the util document, with the fields the price update sets. */
  datatype Coin = Coin(
    name: Option<string>,
    address: Option<string>,
    network: Option<string>,
    apiSymbol: Option<string>,
    price: Option<real>,
    fallbackPrice: Option<real>,
    change24h: Option<real>,
    priceSource: Option<string>,
    lastPriceUpdate: Option<string>)

  /** `coin.apiSymbol || coin.name`. */
  function SymbolOf(c: Coin): Option<string> {
    if Present(c.apiSymbol) then c.apiSymbol else c.name
  }

  predicate TruthyReal(x: Option<real>) {
    x.Some? && x.value != 0.0
  }

  /** `coin.fallbackPrice || coin.price || 0`. */
  function FallbackPriceOf(c: Coin): (p: real)
    ensures TruthyReal(c.fallbackPrice) ==> p == c.fallbackPrice.value
    ensures !TruthyReal(c.fallbackPrice) && TruthyReal(c.price) ==> p == c.price.value
    ensures p == 0.0 ==> !TruthyReal(c.fallbackPrice) && !TruthyReal(c.price)
  {
    if TruthyReal(c.fallbackPrice) then c.fallbackPrice.value
    else if TruthyReal(c.price) then c.price.value
    else 0.0
  }

  function WithApiPrice(c: Coin, e: PriceEntry): Coin {
    c.(price := e.price, change24h := Some(e.change24h), priceSource := Some("api"),
       lastPriceUpdate := Some(e.lastUpdated))
  }

  function WithFallbackPrice(c: Coin, now: string): Coin {
    c.(price := Some(FallbackPriceOf(c)), change24h := Some(0.0), priceSource := Some("fallback"),
       lastPriceUpdate := Some(now))
  }

  /** The symbols sent to the API: those of the coins whose symbol is
      truthy, in order. */
  function ApiSymbols(coins: seq<Coin>): (symbols: seq<string>)
    ensures |symbols| <= |coins|
    ensures forall s :: s in symbols <==> exists i :: 0 <= i < |coins| && Present(SymbolOf(coins[i]))
                                                     && SymbolOf(coins[i]).value == s
  {
    if |coins| == 0 then []
    else
      var rest := ApiSymbols(coins[1..]);
      assert forall i :: 1 <= i < |coins| ==> coins[1..][i - 1] == coins[i];
      if Present(SymbolOf(coins[0])) then [SymbolOf(coins[0]).value] + rest else rest
  }

  /** The per-coin step of the `coins.map(...)`, for a coin that has a
      symbol. */
  function PriceCoin(c: Coin, prices: map<string, PriceEntry>, now: string): (r: Coin)
    requires SymbolOf(c).Some?
    ensures r.name == c.name && r.apiSymbol == c.apiSymbol && r.fallbackPrice == c.fallbackPrice
    ensures r.address == c.address && r.network == c.network
    ensures r.priceSource == Some("api") <==> ToLower(SymbolOf(c).value) in prices
    ensures r.priceSource != Some("api") ==> r == WithFallbackPrice(c, now)
    ensures var k := ToLower(SymbolOf(c).value);
      k in prices ==> r.price == prices[k].price && r.change24h == Some(prices[k].change24h)
                      && r.lastPriceUpdate == Some(prices[k].lastUpdated)
  {
    var k := ToLower(SymbolOf(c).value);
    if k in prices then WithApiPrice(c, prices[k]) else WithFallbackPrice(c, now)
  }

  /** `updateCoinPricesFromAPI(coins)`: one coin out per coin in, each with
      its API price or its fallback price. A coin with neither `apiSymbol`
      nor `name` makes the mapping throw, and every coin then gets its
      fallback price. */
  method UpdateCoinPricesFromApi(coins: seq<Coin>, fetch: string -> Option<map<string, Quote>>, now: string)
    returns (r: seq<Coin>)
    ensures |r| == |coins|
    ensures (exists i :: 0 <= i < |coins| && SymbolOf(coins[i]).None?) ==>
              forall i :: 0 <= i < |coins| ==> r[i] == WithFallbackPrice(coins[i], now)
    ensures (forall i :: 0 <= i < |coins| ==> SymbolOf(coins[i]).Some?) ==>
              var prices := FetchedPrices(CoinIdMapping, ApiSymbols(coins), fetch, now);
              forall i :: 0 <= i < |coins| ==> r[i] == PriceCoin(coins[i], prices, now)
  {
    if |coins| == 0 {
      return [];
    }
    var symbols := ApiSymbols(coins);
    var prices := FetchCryptoPrices(CoinIdMapping, symbols, fetch, now);
    if exists i :: 0 <= i < |coins| && SymbolOf(coins[i]).None? {
      return seq(|coins|, i requires 0 <= i < |coins| => WithFallbackPrice(coins[i], now));
    }
    r := seq(|coins|, i requires 0 <= i < |coins| => PriceCoin(coins[i], prices, now));
  }
}
