/** The two closed region tables: the routing cluster used for account and match
    data, and the platform shard used for champion mastery. Indexing either one
    with an unknown code raises KeyError (Python's `REGIONAL_URLS[region]`). */
module Regions {
  import opened PyRuntime

  const Codes: set<string> := {"na", "euw", "eune", "kr", "jp"}

  const RegionalUrls: map<string, string> := map[
    "na" := "https://americas.api.riotgames.com",
    "euw" := "https://europe.api.riotgames.com",
    "eune" := "https://europe.api.riotgames.com",
    "kr" := "https://asia.api.riotgames.com",
    "jp" := "https://asia.api.riotgames.com"
  ]

  const PlatformUrls: map<string, string> := map[
    "na" := "https://na1.api.riotgames.com",
    "euw" := "https://euw1.api.riotgames.com",
    "eune" := "https://eun1.api.riotgames.com",
    "kr" := "https://kr.api.riotgames.com",
    "jp" := "https://jp1.api.riotgames.com"
  ]

  /** `REGIONAL_URLS[code]` */
  function RegionalUrl(code: string): (r: Outcome<string>)
    ensures r.Returned? <==> code in Codes
    ensures r.Raised? ==> r.exc == KeyError
    ensures r.Returned? ==> |r.value| > 0 && r.value != PlatformUrls[code]
  {
    Index(RegionalUrls, code)
  }

  /** `PLATFORM_URLS[code]` */
  function PlatformUrl(code: string): (r: Outcome<string>)
    ensures r.Returned? <==> code in Codes
    ensures r.Raised? ==> r.exc == KeyError
    ensures r.Returned? ==> |r.value| > 0 && r.value != RegionalUrls[code]
  {
    Index(PlatformUrls, code)
  }

  /** Several codes share one routing cluster, but each code has its own shard. */
  lemma PlatformUrlsDistinct(a: string, b: string)
    requires a in Codes && b in Codes && a != b
    ensures PlatformUrls[a] != PlatformUrls[b]
  {
  }
}
