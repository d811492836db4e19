/**
 Migration of the daemon's configuration from one model with fallback models to
 named profiles, and back into the old fields for code that still reads them.
 */
module ConfigMigration {
  import opened Wrappers

  datatype ModelProfile = ModelProfile(
    model: string,
    apiType: string,
    apiKey: Option<string>,
    baseUrl: Option<string>,
    contextWindow: nat,
    compactRatio: real,
    maxRetries: nat)

  /** The fields of the configuration that the two passes read or write. */
  datatype Config = Config(
    model: string,
    fallbackModels: seq<string>,
    maxRetries: nat,
    apiType: string,
    openaiBaseUrl: Option<string>,
    contextWindow: nat,
    compactRatio: real,
    modelProfiles: map<string, ModelProfile>,
    primaryProfile: Option<string>,
    fallbackProfiles: seq<string>)

  // ----- profile names -----

  function Decimal(n: nat): string {
    var digit := ["0123456789"[n % 10]];
    if n < 10 then digit else Decimal(n / 10) + digit
  }

  function DigitValue(c: char): int {
    c as int - '0' as int
  }

  function Value(s: string): int {
    if s == "" then 0 else 10 * Value(s[..|s| - 1]) + DigitValue(s[|s| - 1])
  }

  lemma {:induction false} ValueOfDecimal(n: nat)
    ensures Value(Decimal(n)) == n
  {
    var digit := ["0123456789"[n % 10]];
    assert DigitValue(digit[0]) == n % 10;
    if n < 10 {
      assert digit[..0] == "";
    } else {
      ValueOfDecimal(n / 10);
      assert (Decimal(n / 10) + digit)[..|Decimal(n / 10)|] == Decimal(n / 10);
    }
  }

  const PRIMARY := "primary"

  function FallbackName(i: nat): string {
    "fallback_" + Decimal(i)
  }

  lemma FallbackNamesDiffer(i: nat, j: nat)
    ensures FallbackName(i) == FallbackName(j) ==> i == j
    ensures FallbackName(i) != PRIMARY
  {
    ValueOfDecimal(i);
    ValueOfDecimal(j);
    assert FallbackName(i)[9..] == Decimal(i) && FallbackName(j)[9..] == Decimal(j);
    assert FallbackName(i)[0] != PRIMARY[0];
  }

  // ----- normalize_profiles -----

  /** The profile of a model; all other settings are inherited from the old fields. */
  function Inherited(c: Config, model: string): ModelProfile {
    ModelProfile(model, c.apiType, None, c.openaiBaseUrl, c.contextWindow, c.compactRatio, c.maxRetries)
  }

  /** The profiles after the primary model and the first `n` fallback models are migrated. */
  function MigratedProfiles(c: Config, n: nat): map<string, ModelProfile>
    requires n <= |c.fallbackModels|
  {
    if n == 0 then map[PRIMARY := Inherited(c, c.model)]
    else MigratedProfiles(c, n - 1)[FallbackName(n - 1) := Inherited(c, c.fallbackModels[n - 1])]
  }

  function MigratedNames(n: nat): seq<string> {
    if n == 0 then [] else MigratedNames(n - 1) + [FallbackName(n - 1)]
  }

  function Normalized(c: Config): Config {
    if c.modelProfiles != map[] || c.model == "" then c
    else
      var n := |c.fallbackModels|;
      c.(modelProfiles := MigratedProfiles(c, n), primaryProfile := Some(PRIMARY),
         fallbackProfiles := c.fallbackProfiles + MigratedNames(n))
  }

  // ----- sync_profiles_to_legacy -----

  /** The models of the named profiles, in order; a name without a profile is skipped. */
  function Models(names: seq<string>, profiles: map<string, ModelProfile>): seq<string> {
    if names == [] then []
    else
      var front, last := names[..|names| - 1], names[|names| - 1];
      Models(front, profiles) + (if last in profiles then [profiles[last].model] else [])
  }

  function WithPrimary(c: Config): Config {
    if c.primaryProfile.Some? && c.primaryProfile.value in c.modelProfiles then
      var p := c.modelProfiles[c.primaryProfile.value];
      c.(model := p.model, apiType := p.apiType, contextWindow := p.contextWindow, compactRatio := p.compactRatio,
         maxRetries := p.maxRetries)
    else
      c
  }

  function Synced(c: Config): Config {
    if c.modelProfiles == map[] then c
    else WithPrimary(c).(fallbackModels := Models(c.fallbackProfiles, c.modelProfiles))
  }

  /** What `load_config_from` does with the parsed configuration. */
  function Loaded(c: Config): Config {
    Synced(Normalized(c))
  }

  class BaoclawConfig {
    var model: string
    var fallbackModels: seq<string>
    var maxRetries: nat
    var apiType: string
    var openaiBaseUrl: Option<string>
    var contextWindow: nat
    var compactRatio: real
    var modelProfiles: map<string, ModelProfile>
    var primaryProfile: Option<string>
    var fallbackProfiles: seq<string>

    ghost function Abs(): Config
      reads this
    {
      Config(model, fallbackModels, maxRetries, apiType, openaiBaseUrl, contextWindow, compactRatio, modelProfiles,
             primaryProfile, fallbackProfiles)
    }

    /** The settings that profiles inherit, and the models to migrate, are those of `c`. */
    ghost predicate Inherits(c: Config)
      reads this`apiType, this`openaiBaseUrl, this`contextWindow, this`compactRatio, this`maxRetries,
        this`fallbackModels
    {
      && apiType == c.apiType && openaiBaseUrl == c.openaiBaseUrl && contextWindow == c.contextWindow
      && compactRatio == c.compactRatio && maxRetries == c.maxRetries && fallbackModels == c.fallbackModels
    }

    method ProfileOf(name: string, ghost c: Config) returns (p: ModelProfile)
      requires Inherits(c)
      ensures p == Inherited(c, name)
    {
      p := ModelProfile(name, apiType, None, openaiBaseUrl, contextWindow, compactRatio, maxRetries);
    }

    method NormalizeProfiles()
      modifies this`modelProfiles, this`primaryProfile, this`fallbackProfiles
      ensures Abs() == Normalized(old(Abs()))
    {
      if modelProfiles != map[] {
        return;
      }
      if model == "" {
        return;
      }
      ghost var c := Abs();
      var primary := ProfileOf(model, c);
      modelProfiles := modelProfiles[PRIMARY := primary];
      primaryProfile := Some(PRIMARY);
      MigrateFallbacks(c);
    }

    /** The loop over the fallback models. */
    method MigrateFallbacks(ghost c: Config)
      requires Inherits(c) && modelProfiles == MigratedProfiles(c, 0)
      modifies this`modelProfiles, this`fallbackProfiles
      ensures modelProfiles == MigratedProfiles(c, |c.fallbackModels|)
      ensures fallbackProfiles == old(fallbackProfiles) + MigratedNames(|c.fallbackModels|)
    {
      for i := 0 to |fallbackModels|
        invariant modelProfiles == MigratedProfiles(c, i)
        invariant fallbackProfiles == old(fallbackProfiles) + MigratedNames(i)
      {
        var p := ProfileOf(fallbackModels[i], c);
        modelProfiles := modelProfiles[FallbackName(i) := p];
        fallbackProfiles := fallbackProfiles + [FallbackName(i)];
      }
    }

    method SyncProfilesToLegacy()
      modifies this`model, this`apiType, this`contextWindow, this`compactRatio, this`maxRetries, this`fallbackModels
      ensures Abs() == Synced(old(Abs()))
    {
      if modelProfiles == map[] {
        return;
      }
      SyncPrimary();
      fallbackModels := [];
      for i := 0 to |fallbackProfiles|
        invariant fallbackModels == Models(fallbackProfiles[..i], modelProfiles)
        invariant Abs() == WithPrimary(old(Abs())).(fallbackModels := fallbackModels)
      {
        assert fallbackProfiles[..i + 1][..i] == fallbackProfiles[..i];
        if fallbackProfiles[i] in modelProfiles {
          fallbackModels := fallbackModels + [modelProfiles[fallbackProfiles[i]].model];
        }
      }
      assert fallbackProfiles[..|fallbackProfiles|] == fallbackProfiles;
    }

    method SyncPrimary()
      modifies this`model, this`apiType, this`contextWindow, this`compactRatio, this`maxRetries
      ensures Abs() == WithPrimary(old(Abs()))
    {
      if primaryProfile.Some? && primaryProfile.value in modelProfiles {
        var p := modelProfiles[primaryProfile.value];
        model := p.model;
        apiType := p.apiType;
        contextWindow := p.contextWindow;
        compactRatio := p.compactRatio;
        maxRetries := p.maxRetries;
      }
    }
  }

  // ----- guarantees -----

  lemma {:induction false} MigratedLookup(c: Config, n: nat, name: string)
    requires n <= |c.fallbackModels|
    ensures name in MigratedProfiles(c, n) <==> name == PRIMARY || exists i :: 0 <= i < n && name == FallbackName(i)
    ensures forall i :: 0 <= i < n && name == FallbackName(i) ==>
              MigratedProfiles(c, n)[name] == Inherited(c, c.fallbackModels[i])
    ensures name == PRIMARY ==> MigratedProfiles(c, n)[name] == Inherited(c, c.model)
  {
    if n > 0 {
      MigratedLookup(c, n - 1, name);
      FallbackNamesDiffer(n - 1, n - 1);
      if name == FallbackName(n - 1) {
        forall i | 0 <= i < n && name == FallbackName(i) ensures i == n - 1 {
          FallbackNamesDiffer(i, n - 1);
        }
        assert 0 <= n - 1 < n;
      }
    }
  }

  lemma {:induction false} ModelsOfTwo(a: seq<string>, b: seq<string>, profiles: map<string, ModelProfile>)
    ensures Models(a + b, profiles) == Models(a, profiles) + Models(b, profiles)
  {
    if b == [] {
      assert a + b == a;
    } else {
      var front := b[..|b| - 1];
      assert (a + b)[..|a + b| - 1] == a + front;
      ModelsOfTwo(a, front, profiles);
    }
  }

  lemma ModelsAppend(names: seq<string>, name: string, profiles: map<string, ModelProfile>)
    ensures Models(names + [name], profiles) ==
            Models(names, profiles) + (if name in profiles then [profiles[name].model] else [])
  {
    assert (names + [name])[..|names|] == names;
  }

  lemma MigratedModel(c: Config, i: nat)
    requires i < |c.fallbackModels|
    ensures var profiles := MigratedProfiles(c, |c.fallbackModels|);
            FallbackName(i) in profiles && profiles[FallbackName(i)].model == c.fallbackModels[i]
  {
    MigratedLookup(c, |c.fallbackModels|, FallbackName(i));
  }

  lemma {:induction false} MigratedModels(c: Config, n: nat, profiles: map<string, ModelProfile>)
    requires n <= |c.fallbackModels| && profiles == MigratedProfiles(c, |c.fallbackModels|)
    ensures Models(MigratedNames(n), profiles) == c.fallbackModels[..n]
  {
    if n > 0 {
      MigratedModels(c, n - 1, profiles);
      ModelsAppend(MigratedNames(n - 1), FallbackName(n - 1), profiles);
      MigratedModel(c, n - 1);
      TakeOneMore(c.fallbackModels, n);
    }
  }

  lemma TakeOneMore(names: seq<string>, n: nat)
    requires 0 < n <= |names|
    ensures names[..n] == names[..n - 1] + [names[n - 1]]
  {
  }

  lemma {:induction false} NoModelsIff(names: seq<string>, profiles: map<string, ModelProfile>)
    ensures Models(names, profiles) == [] <==> forall i :: 0 <= i < |names| ==> names[i] !in profiles
  {
    if names != [] {
      NoModelsIff(names[..|names| - 1], profiles);
    }
  }

  /** A stale name in the list of fallback profiles that the migration happens to define. */
  ghost predicate Captured(c: Config, name: string) {
    name == PRIMARY || exists i :: 0 <= i < |c.fallbackModels| && name == FallbackName(i)
  }

  /**
   Loading a configuration in the old format keeps model, protocol, window, ratio
   and retries, and keeps the ordered fallback models iff no fallback profile name
   left over in it is one that the migration defines.
   */
  lemma MigrationPreserves(c: Config)
    requires c.modelProfiles == map[] && c.model != ""
    ensures var l := Loaded(c);
            && l.model == c.model && l.apiType == c.apiType && l.contextWindow == c.contextWindow
            && l.compactRatio == c.compactRatio && l.maxRetries == c.maxRetries && l.openaiBaseUrl == c.openaiBaseUrl
            && |l.fallbackModels| >= |c.fallbackModels|
            && l.fallbackModels[|l.fallbackModels| - |c.fallbackModels|..] == c.fallbackModels
    ensures Loaded(c).fallbackModels == c.fallbackModels <==>
            forall i :: 0 <= i < |c.fallbackProfiles| ==> !Captured(c, c.fallbackProfiles[i])
  {
    var n := |c.fallbackModels|;
    var profiles := MigratedProfiles(c, n);
    MigratedLookup(c, n, PRIMARY);
    ModelsOfTwo(c.fallbackProfiles, MigratedNames(n), profiles);
    MigratedModels(c, n, profiles);
    assert c.fallbackModels[..n] == c.fallbackModels;
    NoModelsIff(c.fallbackProfiles, profiles);
    forall i | 0 <= i < |c.fallbackProfiles|
      ensures c.fallbackProfiles[i] in profiles <==> Captured(c, c.fallbackProfiles[i])
    {
      MigratedLookup(c, n, c.fallbackProfiles[i]);
    }
    var stale := Models(c.fallbackProfiles, profiles);
    assert Loaded(c).fallbackModels == stale + c.fallbackModels;
    assert |stale + c.fallbackModels| == |stale| + |c.fallbackModels|;
  }

  /** Loading is idempotent, for every configuration in either format. */
  lemma LoadingIsIdempotent(c: Config)
    ensures Loaded(Loaded(c)) == Loaded(c)
  {
    if c.modelProfiles == map[] && c.model != "" {
      MigratedLookup(c, |c.fallbackModels|, PRIMARY);
    }
  }

  /**
   A loaded old configuration, field by field: the primary profile, and one fallback profile
   for each fallback model.
   */
  lemma MigratedFields(c: Config, i: nat)
    requires c.modelProfiles == map[] && c.model != "" && i < |c.fallbackModels|
    ensures var l := Loaded(c);
            && l.primaryProfile == Some("primary") && "primary" in l.modelProfiles
            && l.modelProfiles["primary"] == ModelProfile(
                 c.model, c.apiType, None, c.openaiBaseUrl, c.contextWindow, c.compactRatio, c.maxRetries)
            && |l.fallbackProfiles| == |c.fallbackProfiles| + |c.fallbackModels|
            && l.fallbackProfiles[..|c.fallbackProfiles|] == c.fallbackProfiles
            && l.fallbackProfiles[|c.fallbackProfiles| + i] == FallbackName(i) && FallbackName(i) in l.modelProfiles
            && l.modelProfiles[FallbackName(i)] == ModelProfile(
                 c.fallbackModels[i], c.apiType, None, c.openaiBaseUrl, c.contextWindow, c.compactRatio, c.maxRetries)
  {
    MigratedLookup(c, |c.fallbackModels|, PRIMARY);
    MigratedLookup(c, |c.fallbackModels|, FallbackName(i));
    MigratedNamesAre(|c.fallbackModels|, i);
  }

  lemma {:induction false} MigratedNamesAre(n: nat, i: nat)
    ensures |MigratedNames(n)| == n
    ensures i < n ==> MigratedNames(n)[i] == FallbackName(i)
  {
    if n > 0 {
      MigratedNamesAre(n - 1, i);
    }
  }

  /**
   A configuration in the new format keeps its profiles; the old fields are those of the
   primary profile, if it names one that exists, and each fallback profile that exists
   gives its model, in order. The base URL of a profile is not among the fields synced.
   */
  lemma NewFormatIsSynced(c: Config, front: seq<string>, name: string, back: seq<string>)
    requires c.modelProfiles != map[] && c.fallbackProfiles == front + [name] + back
    ensures var l := Loaded(c);
            && l.modelProfiles == c.modelProfiles && l.primaryProfile == c.primaryProfile
            && l.fallbackProfiles == c.fallbackProfiles && l.openaiBaseUrl == c.openaiBaseUrl
            && l.fallbackModels == Models(front, c.modelProfiles)
                                   + (if name in c.modelProfiles then [c.modelProfiles[name].model] else [])
                                   + Models(back, c.modelProfiles)
  {
    ModelsOfTwo(front + [name], back, c.modelProfiles);
    ModelsAppend(front, name, c.modelProfiles);
  }

  lemma PrimaryIsSynced(c: Config)
    requires c.modelProfiles != map[]
    ensures var l := Loaded(c);
            if c.primaryProfile.Some? && c.primaryProfile.value in c.modelProfiles then
              var p := c.modelProfiles[c.primaryProfile.value];
              && l.model == p.model && l.apiType == p.apiType && l.contextWindow == p.contextWindow
              && l.compactRatio == p.compactRatio && l.maxRetries == p.maxRetries
            else
              && l.model == c.model && l.apiType == c.apiType && l.contextWindow == c.contextWindow
              && l.compactRatio == c.compactRatio && l.maxRetries == c.maxRetries
  {
  }

  /** Without profiles and without a model there is nothing to load. */
  lemma NothingToLoad(c: Config)
    requires c.modelProfiles == map[] && c.model == ""
    ensures Loaded(c) == c
  {
  }
}
