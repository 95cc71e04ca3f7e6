/** The two upstream services, as the price engines see them: the query each is sent and the
    replies it can give. Network I/O itself is not modelled; a reply is a value. */
module Upstream {
  import opened Common

  /** `STEAM_APPID`, the Steam application id of CS2. */
  const STEAM_APPID: nat := 730
  /** `STEAM_CURRENCY_USD`, Steam's currency code for US dollars. */
  const STEAM_CURRENCY_USD: nat := 1

  /** The query parameters of a Steam `priceoverview` request. */
  datatype SteamQuery = SteamQuery(currency: nat, appid: nat, marketHashName: string)

  /** What a Steam request yields: no answer, a non-2xx status, or the decoded JSON body. */
  datatype SteamReply =
    | SteamUnreachable
    | SteamHttpError
    | SteamBody(success: bool, lowestPrice: Option<string>, medianPrice: Option<string>)

  /** The query parameters of a CSFloat `listings` request; an absent filter is not sent. */
  datatype ListingsQuery = ListingsQuery(
    marketHashName: string,
    sortBy: string,
    limit: nat,
    minFloat: Option<real>,
    maxFloat: Option<real>,
    paintSeed: Option<int>)

  /** What a CSFloat request yields: no answer, a non-2xx status, or the listings' prices in cents. */
  datatype ListingsReply =
    | ListingsUnreachable
    | ListingsHttpError
    | ListingsBody(prices: seq<int>)

  /** The upstream services, each a fixed map from query to reply for the duration of a request. */
  type SteamApi = SteamQuery -> SteamReply
  type ListingsApi = ListingsQuery -> ListingsReply
}
