/**
 * The app configuration of the weekly Slack report: each known app's slug,
 * display name and tier, the lookups by slug, and the grouping of the slugs
 * into tiers 1, 2 and 3 in configuration order.
 */
module AppConfig {
  import opened Wrappers

  /** One configured app. */
  datatype AppInfo = AppInfo(slug: string, displayName: string, tier: int)

  /** `APP_CONFIG`, in the order its keys are listed (which `Object.keys` keeps for these keys). */
  const Config: seq<AppInfo> := [
    AppInfo("kiwi-sizing", "Kiwi Size Chart", 1),
    AppInfo("event-tickets", "Evey Events", 1),
    AppInfo("preorder-now", "PreOrder Now", 1),
    AppInfo("automatic-discount-rules", "ADU", 2),
    AppInfo("boxup-product-builder", "Bundle Builder", 2),
    AppInfo("quantity-breaks-now", "Bulk Discounts", 2),
    AppInfo("wholesale-pricing-now", "Wholesale Pricing", 2),
    AppInfo("kiwi-return-saver", "Kiwi Return Saver", 3),
    AppInfo("ultimate-upsell", "Ultimate Upsell", 3),
    AppInfo("zendrop", "Zendrop", 3)
  ]

  /** No slug is configured twice (an object's keys are distinct). */
  predicate DistinctSlugs(config: seq<AppInfo>) {
    forall i, j :: 0 <= i < j < |config| ==> config[i].slug != config[j].slug
  }

  /** `APP_CONFIG[slug]`. */
  function Find(config: seq<AppInfo>, slug: string): Option<AppInfo> {
    if config == [] then None
    else if config[0].slug == slug then Some(config[0])
    else Find(config[1..], slug)
  }

  /** `getDisplayName(slug)`: the configured name when there is a non-empty one, else the slug itself. */
  function DisplayName(slug: string): string {
    var e := Find(Config, slug);
    if e.Some? && e.value.displayName != "" then e.value.displayName else slug
  }

  /** `getTier(slug)`: the configured tier when there is a non-zero one, else 99. */
  function Tier(slug: string): int {
    var e := Find(Config, slug);
    if e.Some? && e.value.tier != 0 then e.value.tier else 99
  }

  lemma ConfigDistinct()
    ensures DistinctSlugs(Config)
  {
  }

  /** With distinct slugs, the lookup finds the one entry of a slug. */
  lemma {:induction false} FindEntry(config: seq<AppInfo>, i: nat)
    requires DistinctSlugs(config) && i < |config|
    ensures Find(config, config[i].slug) == Some(config[i])
  {
    if i > 0 {
      FindEntry(config[1..], i - 1);
    }
  }

  /** Every configured app is shown under its configured name and ranked in its configured tier, 1 to 3. */
  lemma ConfiguredNameAndTier(i: nat)
    requires i < |Config|
    ensures DisplayName(Config[i].slug) == Config[i].displayName
    ensures Tier(Config[i].slug) == Config[i].tier && 1 <= Tier(Config[i].slug) <= 3
  {
    ConfigDistinct();
    FindEntry(Config, i);
  }

  /** The lookup finds nothing exactly when no entry has the slug. */
  lemma {:induction false} FindMissing(config: seq<AppInfo>, slug: string)
    ensures Find(config, slug).None? <==> forall i :: 0 <= i < |config| ==> config[i].slug != slug
  {
    if config != [] {
      FindMissing(config[1..], slug);
      assert forall i :: 1 <= i < |config| ==> config[i] == config[1..][i - 1];
    }
  }

  /** A slug that is not configured is shown as itself and ranked in tier 99. */
  lemma UnconfiguredNameAndTier(slug: string)
    requires forall i :: 0 <= i < |Config| ==> Config[i].slug != slug
    ensures DisplayName(slug) == slug && Tier(slug) == 99
  {
    FindMissing(Config, slug);
  }

  /** The slugs of tier t, in configuration order. */
  function TierSlugs(config: seq<AppInfo>, t: int): seq<string> {
    if config == [] then [] else (if config[0].tier == t then [config[0].slug] else []) + TierSlugs(config[1..], t)
  }

  /** Listing one more entry extends its tier's list at the end. */
  lemma {:induction false} TierSlugsSnoc(config: seq<AppInfo>, e: AppInfo, t: int)
    ensures TierSlugs(config + [e], t) == TierSlugs(config, t) + (if e.tier == t then [e.slug] else [])
  {
    if config != [] {
      assert (config + [e])[1..] == config[1..] + [e];
      TierSlugsSnoc(config[1..], e, t);
    } else {
      assert [e][1..] == [];
    }
  }

  /** A slug is listed under a tier exactly when some entry of the configuration has that slug and tier. */
  lemma {:induction false} TierSlugsMembers(config: seq<AppInfo>, t: int, s: string)
    ensures s in TierSlugs(config, t) <==> exists i :: 0 <= i < |config| && config[i].slug == s && config[i].tier == t
  {
    if config != [] {
      var rest := config[1..];
      TierSlugsMembers(rest, t, s);
      if s in TierSlugs(rest, t) {
        var i :| 0 <= i < |rest| && rest[i].slug == s && rest[i].tier == t;
        assert config[i + 1] == rest[i];
      }
      if exists i :: 0 <= i < |config| && config[i].slug == s && config[i].tier == t {
        var i :| 0 <= i < |config| && config[i].slug == s && config[i].tier == t;
        if i > 0 {
          assert rest[i - 1] == config[i];
        }
      }
    }
  }

  /** The groups of the first k of tiers 1, 2, 3, leaving out an empty tier. */
  function TierGroupsUpTo(config: seq<AppInfo>, k: nat): seq<seq<string>>
    requires k <= 3
  {
    if k == 0 then []
    else TierGroupsUpTo(config, k - 1) + (if TierSlugs(config, k) != [] then [TierSlugs(config, k)] else [])
  }

  /** The groups of tiers 1, 2 and 3, in that order, leaving out an empty tier. */
  function TierGroups(config: seq<AppInfo>): seq<seq<string>> {
    TierGroupsUpTo(config, 3)
  }

  /** `byTier` holds, under each tier that has slugs, the tier's slugs in order. */
  ghost predicate IndexesTiers(byTier: map<int, seq<string>>, config: seq<AppInfo>) {
    forall t :: (t in byTier <==> TierSlugs(config, t) != []) && (t in byTier ==> byTier[t] == TierSlugs(config, t))
  }

  /** Pushing the next entry's slug onto its tier's list keeps the index. */
  lemma IndexStep(byTier: map<int, seq<string>>, config: seq<AppInfo>, i: nat)
    requires i < |config| && IndexesTiers(byTier, config[..i])
    ensures var e := config[i];
      IndexesTiers(byTier[e.tier := (if e.tier in byTier then byTier[e.tier] else []) + [e.slug]], config[..i + 1])
  {
    assert config[..i + 1] == config[..i] + [config[i]];
    forall t {
      TierSlugsSnoc(config[..i], config[i], t);
    }
  }

  /** The first loop of `getSlugsByTier()`: each slug pushed onto its tier's list in `byTier`. */
  method IndexByTier(config: seq<AppInfo>) returns (byTier: map<int, seq<string>>)
    ensures IndexesTiers(byTier, config)
  {
    byTier := map[];
    var i := 0;
    while i < |config|
      invariant 0 <= i <= |config|
      invariant IndexesTiers(byTier, config[..i])
    {
      var slug, t := config[i].slug, config[i].tier;
      ghost var before := byTier;
      if t !in byTier {
        byTier := byTier[t := []];
      }
      byTier := byTier[t := byTier[t] + [slug]];
      IndexStep(before, config, i);
      i := i + 1;
    }
    assert config[..|config|] == config;
  }

  /** `getSlugsByTier()` on a configuration: the lists of tiers 1, 2 and 3 that exist, in that order. */
  method GroupByTier(config: seq<AppInfo>) returns (groups: seq<seq<string>>)
    ensures groups == TierGroups(config)
  {
    var byTier := IndexByTier(config);
    groups := [];
    var tiers := [1, 2, 3];
    var k := 0;
    while k < 3
      invariant 0 <= k <= 3
      invariant groups == TierGroupsUpTo(config, k)
    {
      if tiers[k] in byTier {
        groups := groups + [byTier[tiers[k]]];
      }
      k := k + 1;
    }
  }

  /** `getSlugsByTier()`: the tier groups of the configured apps. */
  method SlugsByTier() returns (groups: seq<seq<string>>)
    ensures groups == TierGroups(Config)
  {
    groups := GroupByTier(Config);
  }

  /**
   * The report lists the three tiers of the configuration in full: the first
   * three apps, the next four and the last three.
   */
  lemma ConfiguredTiers()
    ensures TierGroups(Config) == [
      [Config[0].slug, Config[1].slug, Config[2].slug],
      [Config[3].slug, Config[4].slug, Config[5].slug, Config[6].slug],
      [Config[7].slug, Config[8].slug, Config[9].slug]]
  {
    TierOneSlugs();
    TierTwoSlugs();
    TierThreeSlugs();
  }

  lemma TierOneSlugs()
    ensures TierSlugs(Config, 1) == [Config[0].slug, Config[1].slug, Config[2].slug]
  {
  }

  lemma TierTwoSlugs()
    ensures TierSlugs(Config, 2) == [Config[3].slug, Config[4].slug, Config[5].slug, Config[6].slug]
  {
  }

  lemma TierThreeSlugs()
    ensures TierSlugs(Config, 3) == [Config[7].slug, Config[8].slug, Config[9].slug]
  {
  }

  /**
   * Every configured slug of tier 1, 2 or 3 is in exactly one group, the
   * group of its own tier, and that group is listed.
   */
  lemma ExactlyOneGroup(config: seq<AppInfo>, a: nat)
    requires DistinctSlugs(config) && a < |config| && 1 <= config[a].tier <= 3
    ensures TierSlugs(config, config[a].tier) in TierGroups(config)
    ensures forall j :: 0 <= j < |TierGroups(config)| ==>
      (config[a].slug in TierGroups(config)[j] <==> TierGroups(config)[j] == TierSlugs(config, config[a].tier))
  {
    var e := config[a];
    TierSlugsMembers(config, e.tier, e.slug);
    forall t | 1 <= t <= 3
      ensures e.slug in TierSlugs(config, t) <==> t == e.tier
    {
      TierSlugsMembers(config, t, e.slug);
      if e.slug in TierSlugs(config, t) {
        var b :| 0 <= b < |config| && config[b].slug == e.slug && config[b].tier == t;
        assert a == b;
      }
    }
    GroupsOfTier(config, e.slug, e.tier, 3);
  }

  /** Among the first k groups, those holding the slug are the one of its tier. */
  lemma {:induction false} GroupsOfTier(config: seq<AppInfo>, slug: string, tier: int, k: nat)
    requires k <= 3 && 1 <= tier <= 3
    requires forall t :: 1 <= t <= 3 ==> (slug in TierSlugs(config, t) <==> t == tier)
    ensures tier <= k ==> TierSlugs(config, tier) in TierGroupsUpTo(config, k)
    ensures forall j :: 0 <= j < |TierGroupsUpTo(config, k)| ==>
      (slug in TierGroupsUpTo(config, k)[j] <==> TierGroupsUpTo(config, k)[j] == TierSlugs(config, tier))
  {
    if k > 0 {
      GroupsOfTier(config, slug, tier, k - 1);
      var prev := TierGroupsUpTo(config, k - 1);
      var g := TierGroupsUpTo(config, k);
      assert forall j :: 0 <= j < |prev| ==> g[j] == prev[j];
      if k == tier {
        assert slug in TierSlugs(config, k);
      }
    }
  }
}
