/**
 The `cookiecutter()` entry point: expand the template reference, decide
 whether it names a remote repository to clone or a local directory, locate
 the template's `cookiecutter.json`, and finish the context that is handed
 to file generation.

 The configuration loader, the cloner, context generation, the prompt, the
 clock and `abspath` are collaborators whose code is not part of this model;
 they enter as the fields of an `Environment`.
 */
module Orchestrator {
  import opened Strings
  import opened Config
  import opened Abbreviations
  import opened Context

  /** The arguments the cloner is called with. */
  datatype CloneRequest = CloneRequest(repoUrl: string, checkout: Option<string>, cloneToDir: string, noInput: bool)

  /** The arguments context generation is called with. */
  datatype ContextRequest = ContextRequest(
    contextFile: string, defaultContext: map<string, string>, extraContext: Option<Context>)

  /** The collaborators, as functions of their arguments, and the readings of the outside world. */
  datatype Environment = Environment(
    loadConfig: string -> UserConfig,
    clone: CloneRequest -> string,
    generateContext: ContextRequest -> Context,
    prompt: (Context, bool) -> Value,
    abspath: string -> string,
    now: Clock,
    version: string)

  /**
   What one run decided: the expanded reference, the clone call if there was
   one, and the repository directory and context that file generation gets.
   */
  datatype Run = Run(
    template: string,
    cloned: Option<CloneRequest>,
    repoDir: string,
    contextFile: string,
    context: Context)

  /** The name of the template declaration file inside the repository directory. */
  const ContextFileName: string := "cookiecutter.json"

  /**
   A reference is remote when it contains `git@` or `https://` anywhere:
   a substring test, not a URL grammar.
   */
  predicate IsRemote(template: string)
  {
    Contains(template, "git@") || Contains(template, "https://")
  }

  /**
   Joins two path components with the POSIX rule: an absolute second
   component replaces the first; otherwise a single `/` is put between them
   unless the first is empty or already ends with one.
   */
  function Join(dir: string, name: string): (path: string)
    ensures StartsWith(name, "/") ==> path == name
    ensures !StartsWith(name, "/") ==>
      && StartsWith(path, dir) && EndsWith(path, name)
      && (if dir == "" || EndsWith(dir, "/") then |path| == |dir| + |name| else |path| == |dir| + 1 + |name|)
      && (var parent := path[..|path| - |name|]; parent == "" || EndsWith(parent, "/"))
  {
    if StartsWith(name, "/") then name
    else if dir == "" || EndsWith(dir, "/") then dir + name
    else dir + "/" + name
  }

  /**
   The `cookiecutter()` entry point, collaborators abstracted. The reference
   is expanded with the loaded configuration's abbreviations; a remote one is
   cloned into the configured directory, a local one is used as it is; the
   generated context then gets the prompt's answers under `cookiecutter`, the
   extra globals and, last, the six runtime values.
   */
  method Cookiecutter(template: string, checkout: Option<string>, noInput: bool,
                      extraContext: Option<Context>, extraGlobals: Option<Context>,
                      rcFile: string, env: Environment)
    returns (run: Run)
    ensures var config := env.loadConfig(rcFile);
      && run.template == Expand(template, config)
      && (run.cloned.Some? <==> IsRemote(run.template))
      && (run.cloned.Some? ==>
            && run.cloned.value == CloneRequest(run.template, checkout, config.cookiecuttersDir, noInput)
            && run.repoDir == env.clone(run.cloned.value))
      && (run.cloned.None? ==> run.repoDir == run.template)
      && run.contextFile == Join(run.repoDir, ContextFileName)
    ensures var config := env.loadConfig(rcFile);
      var generated := env.generateContext(ContextRequest(run.contextFile, config.defaultContext, extraContext));
      run.context == FinishContext(generated, env.prompt(generated, noInput), Globals(extraGlobals),
                                   RuntimeValues(env.version, env.abspath(run.repoDir),
                                                 env.abspath(run.contextFile), env.now))
  {
    var config := env.loadConfig(rcFile);
    var expanded := Expand(template, config);

    var repoDir: string;
    var cloned: Option<CloneRequest> := None;
    if Contains(expanded, "git@") || Contains(expanded, "https://") {
      var request := CloneRequest(expanded, checkout, config.cookiecuttersDir, noInput);
      repoDir := env.clone(request);
      cloned := Some(request);
    } else {
      repoDir := expanded;
    }

    var contextFile := Join(repoDir, ContextFileName);
    var context := env.generateContext(ContextRequest(contextFile, config.defaultContext, extraContext));

    context := context[CookiecutterKey := env.prompt(context, noInput)];
    context := context + Globals(extraGlobals);
    context := context + RuntimeValues(env.version, env.abspath(repoDir), env.abspath(contextFile), env.now);

    run := Run(expanded, cloned, repoDir, contextFile, context);
  }

  /** Any reference with `git@` or `https://` in it is routed to the cloner, a local path included. */
  lemma MarkersMakeRemote(before: string, after: string)
    ensures IsRemote(before + "git@" + after)
    ensures IsRemote(before + "https://" + after)
  {
    ContainsMiddle(before, "git@", after);
    ContainsMiddle(before, "https://", after);
  }

  /** A reference with neither `@` nor `:` in it is local. */
  lemma PlainPathIsLocal(template: string)
    requires '@' !in template && ':' !in template
    ensures !IsRemote(template)
  {
    MissingCharRulesOut(template, "git@", 3);
    MissingCharRulesOut(template, "https://", 5);
  }

  /** `gh:owner/repo` with no user abbreviations expands to a URL that is cloned. */
  lemma GitHubShorthandIsCloned(path: string, config: UserConfig)
    ensures IsRemote(Expand("gh:" + path, NoAbbreviations(config)))
  {
    GitHubShorthand(path, config);
    var url := "https://github.com/" + path + ".git";
    assert url[..8] == "https://";
    assert OccursAt(url, "https://", 0);
  }

  /**
   A plain local path: a reference with no colon and no `@` that is not an
   abbreviation key is not expanded, is not cloned, and its declaration file
   sits directly inside it.
   */
  lemma LocalPathScenario(dir: string, config: UserConfig)
    requires '@' !in dir && ':' !in dir && dir !in Effective(config)
    requires dir != "" && !EndsWith(dir, "/")
    ensures Expand(dir, config) == dir
    ensures !IsRemote(dir)
    ensures Join(dir, ContextFileName) == dir + "/" + ContextFileName
  {
    PlainPathIsLocal(dir);
    PrefixRuleNeedsColon(dir, config);
  }
}
