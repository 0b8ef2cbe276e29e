/**
 * The option translator: turns the host's classifier configuration into
 * the engine's options message (`ConvertToProtoOptions`).
 */
module OptionTranslator {
  import opened Wrappers
  import Engine
  import Host

  /**
   * The engine options a host configuration stands for: locale and
   * max-results as given, a threshold only when the host flagged one, the
   * allow-list and deny-list as whitelist and blacklist, and no model
   * source yet.
   */
  function Translated(javaOptions: Host.ImageClassifierOptions): Engine.ImageClassifierOptions {
    Engine.ImageClassifierOptions(
      javaOptions.displayNamesLocale,
      javaOptions.maxResults,
      if javaOptions.isScoreThresholdSet then Some(javaOptions.scoreThreshold) else None,
      javaOptions.classNameAllowList,
      javaOptions.classNameDenyList,
      None)
  }

  /**
   * Builds the options message field by field, appending the class-name
   * lists one name at a time as the native code does.
   */
  method ConvertToProtoOptions(javaOptions: Host.ImageClassifierOptions)
    returns (protoOptions: Engine.ImageClassifierOptions)
    ensures protoOptions == Translated(javaOptions)
  {
    protoOptions := Engine.EmptyOptions;
    protoOptions := protoOptions.(displayNamesLocale := javaOptions.displayNamesLocale);
    protoOptions := protoOptions.(maxResults := javaOptions.maxResults);
    if javaOptions.isScoreThresholdSet {
      protoOptions := protoOptions.(scoreThreshold := Some(javaOptions.scoreThreshold));
    }

    var allowList := javaOptions.classNameAllowList;
    for i := 0 to |allowList|
      invariant protoOptions == Translated(javaOptions).(classNameWhitelist := allowList[..i], classNameBlacklist := [])
    {
      protoOptions := protoOptions.(classNameWhitelist := protoOptions.classNameWhitelist + [allowList[i]]);
    }

    var denyList := javaOptions.classNameDenyList;
    for i := 0 to |denyList|
      invariant protoOptions == Translated(javaOptions).(classNameBlacklist := denyList[..i])
    {
      protoOptions := protoOptions.(classNameBlacklist := protoOptions.classNameBlacklist + [denyList[i]]);
    }
    assert denyList[..|denyList|] == denyList;
  }

  /**
   * Every field of the host configuration reaches the engine options
   * unchanged, and a threshold is present exactly when the host flagged it.
   */
  lemma TranslatedOptionsFaithful(javaOptions: Host.ImageClassifierOptions)
    ensures var p := Translated(javaOptions);
      && p.displayNamesLocale == javaOptions.displayNamesLocale
      && p.maxResults == javaOptions.maxResults
      && (p.scoreThreshold.Some? <==> javaOptions.isScoreThresholdSet)
      && (p.scoreThreshold.Some? ==> p.scoreThreshold.value == javaOptions.scoreThreshold)
      && p.classNameWhitelist == javaOptions.classNameAllowList
      && p.classNameBlacklist == javaOptions.classNameDenyList
      && p.fileDescriptorMeta.None?
  {
  }

  /** The threshold value of an unflagged configuration is never read. */
  lemma UnsetThresholdIgnored(javaOptions: Host.ImageClassifierOptions, other: Engine.Float)
    requires !javaOptions.isScoreThresholdSet
    ensures Translated(javaOptions.(scoreThreshold := other)) == Translated(javaOptions)
  {
  }

  /**
   * Translation loses nothing but an unflagged threshold value: two host
   * configurations translate alike exactly when they agree on every field
   * and on the threshold whenever it is flagged.
   */
  lemma TranslationInjective(a: Host.ImageClassifierOptions, b: Host.ImageClassifierOptions)
    ensures Translated(a) == Translated(b) <==>
      && a.displayNamesLocale == b.displayNamesLocale
      && a.maxResults == b.maxResults
      && a.isScoreThresholdSet == b.isScoreThresholdSet
      && (a.isScoreThresholdSet ==> a.scoreThreshold == b.scoreThreshold)
      && a.classNameAllowList == b.classNameAllowList
      && a.classNameDenyList == b.classNameDenyList
  {
  }
}
