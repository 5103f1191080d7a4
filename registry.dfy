/**
 * The connector registry (adpulse/connectors/registry.py): a table from
 * lower-cased platform slug to connector, looked up case-insensitively, and
 * the default registry holding the three CSV connectors.
 */
module Registry {
  import opened Wrappers
  import opened Text
  import opened Errors
  import opened ConnectorBase
  import Connectors

  class ConnectorRegistry {
    /** `_connectors`: each connector filed under its lower-cased slug. */
    var connectors: map<string, Connector>

    /** Every entry sits under the lower-cased slug of the connector it holds. */
    ghost predicate Valid()
      reads this
    {
      forall k :: k in connectors ==> k == Lower(connectors[k].slug)
    }

    /** An empty registry. */
    constructor ()
      ensures connectors == map[]
      ensures Valid()
    {
      connectors := map[];
    }

    /**
     * `register`: files `c` under its lower-cased slug, replacing a connector
     * with the same slug in any letter case and leaving every other entry.
     */
    method Register(c: Connector)
      requires Valid()
      modifies this
      ensures connectors == old(connectors)[Lower(c.slug) := c]
      ensures Valid()
      ensures Contains(c.slug)
    {
      connectors := connectors[Lower(c.slug) := c];
    }

    /**
     * `slug in registry`: whether some registered connector's slug equals
     * `slug` once both are lower-cased.
     */
    predicate Contains(slug: string)
      reads this
      ensures Valid() ==> (Contains(slug) <==> exists k :: k in connectors && Lower(connectors[k].slug) == Lower(slug))
    {
      Lower(slug) in connectors
    }

    /**
     * `get`: the connector filed under the lower-cased slug; for a slug that
     * is not registered, the "Unsupported platform" error naming the slug as
     * given and listing every registered slug in ascending order.
     */
    method Get(slug: string) returns (r: Result<Connector, Error>)
      ensures r.Ok? <==> Contains(slug)
      ensures r.Ok? ==> r.value == connectors[Lower(slug)]
      ensures r.Err? ==> && r.error.UnsupportedPlatform? && r.error.slug == slug
                         && StrictlySorted(r.error.supported) && Elements(r.error.supported) == connectors.Keys
    {
      var normalized := Lower(slug);
      if normalized !in connectors {
        var supported := SortedStrings(connectors.Keys);
        return Err(UnsupportedPlatform(slug, supported));
      }
      return Ok(connectors[normalized]);
    }

    /** `supported_platforms`: the registered slugs, ascending, each once. */
    method SupportedPlatforms() returns (r: seq<string>)
      ensures StrictlySorted(r) && Elements(r) == connectors.Keys && |r| == |connectors|
    {
      r := SortedStrings(connectors.Keys);
    }
  }

  /** A slug with no upper-case ASCII letter is its own lower-cased form. */
  lemma LowerUnchanged(s: string)
    requires forall i :: 0 <= i < |s| ==> !('A' <= s[i] <= 'Z')
    ensures Lower(s) == s
  {
  }

  /** The connector of platform `p` as the default registry builds it. */
  function DefaultOf(p: Platform): Connector {
    Connectors.DefaultConnectorsConstruct(p);
    Connectors.DefaultConnector(p).value
  }

  /** The table of the default registry. */
  function DefaultTable(): (m: map<string, Connector>)
    ensures m.Keys == {"google", "meta", "tiktok"}
  {
    map["google" := DefaultOf(Google), "meta" := DefaultOf(Meta), "tiktok" := DefaultOf(TikTok)]
  }

  /** `build_default_registry`: the Google, Meta and TikTok connectors, registered in that order. */
  method BuildDefaultRegistry() returns (reg: ConnectorRegistry)
    ensures fresh(reg)
    ensures reg.Valid() && reg.connectors == DefaultTable()
  {
    reg := new ConnectorRegistry();
    var google, meta, tiktok := DefaultOf(Google), DefaultOf(Meta), DefaultOf(TikTok);
    LowerUnchanged("google");
    LowerUnchanged("meta");
    LowerUnchanged("tiktok");
    reg.Register(google);
    reg.Register(meta);
    reg.Register(tiktok);
  }

  /** Every entry of the default table is filed under its own slug and is that platform's connector. */
  lemma DefaultTableValid()
    ensures forall k :: k in DefaultTable() ==> k == Lower(DefaultTable()[k].slug)
    ensures DefaultTable()["google"].platform == Google && DefaultTable()["google"].name == "Google Ads"
    ensures DefaultTable()["meta"].platform == Meta && DefaultTable()["meta"].name == "Meta Ads"
    ensures DefaultTable()["tiktok"].platform == TikTok && DefaultTable()["tiktok"].name == "TikTok Ads"
  {
    LowerUnchanged("google");
    LowerUnchanged("meta");
    LowerUnchanged("tiktok");
  }

  /** The default registry supports exactly google, meta and tiktok, listed in that order. */
  lemma {:induction false} DefaultSupported(r: seq<string>)
    requires StrictlySorted(r) && Elements(r) == DefaultTable().Keys
    ensures r == ["google", "meta", "tiktok"]
  {
    var expected := ["google", "meta", "tiktok"];
    assert LexLt("google", "meta") && LexLt("meta", "tiktok") && LexLt("google", "tiktok");
    assert StrictlySorted(expected);
    assert Elements(expected) == {"google", "meta", "tiktok"};
    StrictlySortedUnique(r, expected);
  }

  /**
   * Lookup ignores letter case, so "GOOGLE" finds the Google connector, and
   * "bing" is not registered.
   */
  lemma DefaultLookup()
    ensures Lower("GOOGLE") in DefaultTable() && DefaultTable()[Lower("GOOGLE")].platform == Google
    ensures Lower("bing") !in DefaultTable()
  {
    assert Lower("GOOGLE") == "google";
    LowerUnchanged("bing");
  }
}
