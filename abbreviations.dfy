/**
 Abbreviation expansion: a short template reference such as `gh:owner/repo`
 becomes a full repository URL by way of a table of patterns, the two
 built-in ones overlaid with the user's own.
 */
module Abbreviations {
  import opened Strings
  import opened Config

  /** The GitHub pattern, `https://github.com/{0}.git`. */
  const GitHubPattern: string := "https://github.com/" + Slot + ".git"

  /** The Bitbucket pattern, `https://bitbucket.org/{0}`. */
  const BitbucketPattern: string := "https://bitbucket.org/" + Slot

  /** The two built-in abbreviations, for GitHub and Bitbucket. */
  const Builtin: map<string, string> := map["gh" := GitHubPattern, "bb" := BitbucketPattern]

  /** The user's abbreviations, or none when the configuration has no such entry. */
  function UserAbbreviations(config: UserConfig): (user: map<string, string>)
  {
    if config.abbreviations.Some? then config.abbreviations.value else map[]
  }

  /**
   The table expansion consults: a copy of the built-in table updated with
   the user's entries. Every user entry is present with the user's pattern;
   every built-in key the user does not redefine keeps its built-in pattern.
   */
  function Effective(config: UserConfig): (table: map<string, string>)
    ensures table.Keys == Builtin.Keys + UserAbbreviations(config).Keys
    ensures forall k :: k in UserAbbreviations(config) ==> table[k] == UserAbbreviations(config)[k]
    ensures forall k :: k in Builtin && k !in UserAbbreviations(config) ==> table[k] == Builtin[k]
  {
    Builtin + UserAbbreviations(config)
  }

  /** Expands `template` against the effective table of `config`. */
  function Expand(template: string, config: UserConfig): (expanded: string)
  {
    var table := Effective(config);
    if template in table then table[template]
    else
      var (prefix, _, rest) := Partition(template, ':');
      if prefix in table then ReplaceSlot(table[prefix], rest)
      else template
  }

  /** An exact key returns its pattern verbatim, with no slot filled. */
  lemma ExactMatchWins(template: string, config: UserConfig)
    requires template in Effective(config)
    ensures Expand(template, config) == Effective(config)[template]
  {
  }

  /** A user abbreviation replaces the built-in one of the same key. */
  lemma UserShadowsBuiltin(key: string, config: UserConfig)
    requires key in UserAbbreviations(config)
    ensures Expand(key, config) == UserAbbreviations(config)[key]
  {
  }

  /**
   Without an exact match, a reference `prefix:rest` whose prefix (the text
   before the first colon) is a key fills that key's slot with `rest`.
   */
  lemma PrefixRule(prefix: string, rest: string, config: UserConfig)
    requires ':' !in prefix
    requires prefix + ":" + rest !in Effective(config)
    requires prefix in Effective(config)
    ensures Expand(prefix + ":" + rest, config) == ReplaceSlot(Effective(config)[prefix], rest)
  {
    PartitionAtFirst(prefix, ':', rest);
  }

  /** Without a colon, only an exact key is expanded. */
  lemma PrefixRuleNeedsColon(template: string, config: UserConfig)
    requires ':' !in template
    requires template !in Effective(config)
    ensures Expand(template, config) == template
  {
  }

  /** A reference whose neither whole nor colon prefix is a key is returned unchanged. */
  lemma FallbackIsIdentity(template: string, config: UserConfig)
    requires template !in Effective(config)
    requires Partition(template, ':').0 !in Effective(config)
    ensures Expand(template, config) == template
  {
  }

  /**
   Expansion only ever yields the reference itself, a pattern of the table
   as it stands, or a pattern of the table with its slot filled by the text
   after the first colon.
   */
  lemma ExpandOutcomes(template: string, config: UserConfig)
    ensures var table := Effective(config);
      || Expand(template, config) == template
      || (template in table && Expand(template, config) == table[template])
      || (exists prefix, rest :: ':' !in prefix && template == prefix + ":" + rest
            && prefix in table && Expand(template, config) == ReplaceSlot(table[prefix], rest))
  {
    var table := Effective(config);
    var (prefix, found, rest) := Partition(template, ':');
    if template !in table && prefix in table {
      assert found;
      assert template == prefix + ":" + rest;
    }
  }

  /** The configuration that defines no abbreviations of its own. */
  function NoAbbreviations(config: UserConfig): (plain: UserConfig)
  {
    config.(abbreviations := None)
  }

  /** `gh:owner/repo` becomes the GitHub clone URL of that repository. */
  lemma GitHubShorthand(path: string, config: UserConfig)
    ensures Expand("gh:" + path, NoAbbreviations(config)) == "https://github.com/" + path + ".git"
  {
    var c := NoAbbreviations(config);
    assert Effective(c) == Builtin;
    assert "gh:" + path == "gh" + ":" + path;
    assert |"gh:" + path| >= 3;
    PrefixRule("gh", path, c);
    FillSingleSlot("https://github.com/", ".git", path);
  }

  /** `bb:owner/repo` becomes the Bitbucket URL of that repository. */
  lemma BitbucketShorthand(path: string, config: UserConfig)
    ensures Expand("bb:" + path, NoAbbreviations(config)) == "https://bitbucket.org/" + path
  {
    var c := NoAbbreviations(config);
    assert Effective(c) == Builtin;
    assert "bb:" + path == "bb" + ":" + path;
    assert |"bb:" + path| >= 3;
    PrefixRule("bb", path, c);
    assert BitbucketPattern == "https://bitbucket.org/" + Slot + "";
    FillSingleSlot("https://bitbucket.org/", "", path);
  }

  /** With an empty rest the slot is filled with the empty string. */
  lemma GitHubEmptyRest(config: UserConfig)
    ensures Expand("gh:", NoAbbreviations(config)) == "https://github.com/.git"
  {
    GitHubShorthand("", config);
    assert "gh:" + "" == "gh:";
  }

  /** A user entry `gh` -> `custom:{0}` is returned verbatim for the bare key `gh`. */
  lemma CustomGitHubEntry(config: UserConfig)
    requires config.abbreviations == Some(map["gh" := "custom:{0}"])
    ensures Expand("gh", config) == "custom:{0}"
  {
  }
}
