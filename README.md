# cookiecutter orchestration core, modelled in Dafny

This project models the template-resolution and context-finishing logic of
cookiecutter's entry point, `cookiecutter/main.py`:

- **Abbreviation expansion** (`expand_abbreviations`): the built-in table
  (`gh`, `bb`) overlaid with the user's `abbreviations`, then three ordered
  rules — an exact key returns its pattern verbatim; otherwise, when the text
  before the first `:` is a key, its pattern's `{0}` slot is filled with the
  text after that colon; otherwise the reference is returned unchanged.
- **Source classification**: an expanded reference containing `git@` or
  `https://` is cloned; anything else is used as the repository directory
  itself. The declaration file is the repository directory joined with
  `cookiecutter.json`.
- **Context finishing**: the generated context's `cookiecutter` key is
  replaced by the prompt's answers, the extra globals are merged in, and the
  six runtime values (`version`, `repo_dir`, `context_file`, `current_year`,
  `current_date`, `current_date_iso`) are merged in last.

Files:

- `strings.dfy` (`Strings`): `str.partition`, the substring test and the
  single-slot `str.format` as functions, with their characterising lemmas.
- `config.dfy` (`Config`): the shape of the loaded user configuration.
- `abbreviations.dfy` (`Abbreviations`): the built-in table, the effective
  table, `Expand`, and the rule lemmas.
- `context.dfy` (`Context`): context values, the ordered layer merge used as
  the reference for "later writer wins", the runtime values and
  `FinishContext`, with the precedence lemmas.
- `orchestrator.dfy` (`Orchestrator`): the `cookiecutter()` entry point as a
  method that updates a local context step by step, with every collaborator
  passed in as a function field of an `Environment`; routing lemmas.

The built-in table is a `const`, and the effective table is a fresh map value
(`Builtin + user`), so no expansion can alter the built-in entries; the
source gets the same guarantee by updating a copy (main.py:43).

## Model

| member | source | states |
|---|---|---|
| Strings.Partition | cookiecutter/main.py:49-51 | the prefix has no separator; found iff the separator occurs; when found the input is prefix + separator + rest; when not, the prefix is the whole input and the rest is empty |
| Strings.PartitionAtFirst | cookiecutter/main.py:51 | splitting `prefix + ":" + rest` with a colon-free prefix yields exactly that prefix and rest |
| Strings.Contains | cookiecutter/main.py:81 | the substring test holds iff the needle occurs at some index of the string |
| Strings.MissingCharRulesOut | cookiecutter/main.py:81 | a string lacking some character of the needle does not contain the needle |
| Strings.ContainsMiddle | cookiecutter/main.py:81 | any string built around the needle contains it |
| Strings.ReplaceSlotNoBrace | cookiecutter/main.py:53 | a pattern without braces is returned unchanged by slot filling |
| Strings.ReplaceSlotAfterLiteral | cookiecutter/main.py:53 | a brace-free literal before a `{0}` slot is copied and the slot is replaced by the argument |
| Strings.FillSingleSlot | cookiecutter/main.py:53 | a pattern `lit{0}tail` with no other braces becomes `lit + arg + tail` |
| Abbreviations.Effective | cookiecutter/main.py:43-44 | the effective table has the built-in and the user keys; user entries keep the user's pattern; built-in keys the user does not redefine keep the built-in pattern |
| Abbreviations.ExactMatchWins | cookiecutter/main.py:46-47 | a reference that is a key of the effective table expands to that key's pattern verbatim, with no slot filled |
| Abbreviations.UserShadowsBuiltin | cookiecutter/main.py:43-47 | a user-defined key expands to the user's pattern, even when it is also a built-in key |
| Abbreviations.PrefixRule | cookiecutter/main.py:49-53 | with no exact match, `prefix:rest` whose colon-free prefix is a key expands to that key's pattern with `{0}` filled by `rest` |
| Abbreviations.PrefixRuleNeedsColon | cookiecutter/main.py:46-52 | a reference without a colon that is not a key is returned unchanged |
| Abbreviations.FallbackIsIdentity | cookiecutter/main.py:46-55 | when neither the reference nor its text before the first colon is a key, the result is the reference |
| Abbreviations.ExpandOutcomes | cookiecutter/main.py:43-55 | the result is always the reference itself, the verbatim pattern of the reference's key, or a key's pattern filled with the text after the first colon |
| Abbreviations.GitHubShorthand | cookiecutter/main.py:28-53 | without user abbreviations `gh:path` expands to `https://github.com/path.git` |
| Abbreviations.BitbucketShorthand | cookiecutter/main.py:28-53 | without user abbreviations `bb:path` expands to `https://bitbucket.org/path` |
| Abbreviations.GitHubEmptyRest | cookiecutter/main.py:49-53 | `gh:` fills the slot with the empty string, giving `https://github.com/.git` |
| Abbreviations.CustomGitHubEntry | cookiecutter/main.py:43-47 | with the user entry `gh` -> `custom:{0}`, the bare reference `gh` expands to `custom:{0}` |
| Context.MergeLayersKeys | cookiecutter/main.py:104-116 | a key is in the ordered merge of layers iff some layer has it |
| Context.MergeLayersLastWins | cookiecutter/main.py:104-116 | in the ordered merge a key takes its value from the last layer that has it |
| Context.RuntimeValues | cookiecutter/main.py:109-116 | the runtime layer has exactly the six runtime keys |
| Context.FinishContextIsLayerMerge | cookiecutter/main.py:104-116 | the finished context equals the ordered merge of: generated context, prompt answers under `cookiecutter`, extra globals, runtime values |
| Context.ContextPrecedence | cookiecutter/main.py:104-116 | a key is present iff it came from some layer; runtime keys have their runtime value; otherwise extra globals win, also over `cookiecutter`; otherwise `cookiecutter` holds the prompt's answers; every other generated key keeps its value |
| Context.RuntimeValuesWin | cookiecutter/main.py:107-116 | whatever the generated context and extra globals hold, the six runtime keys end up with the version, the absolute paths and the clock readings |
| Context.FourLayerExample | cookiecutter/main.py:108-116 | merging `{a:1,b:2}`, `{b:3,c:4}`, `{c:5,d:6}`, `{a:99}` in order gives `{a:99,b:3,c:5,d:6}` |
| Orchestrator.Join | cookiecutter/main.py:93 | an absolute name replaces the directory; otherwise the path starts with the directory and ends with the name, is exactly `dir + name` when the directory is empty or already ends with `/`, and otherwise has exactly one `/` inserted between them |
| Orchestrator.Cookiecutter | cookiecutter/main.py:58-122 | the reference is expanded with the loaded configuration; the cloner is called, with the expanded URL, the checkout, the configured clone directory and the no-input flag, iff the expanded reference contains `git@` or `https://`, and its result is the repository directory; otherwise the directory is the expanded reference; the declaration file is the directory joined with `cookiecutter.json`; the final context is the generated context finished by prompt answers, extra globals and runtime values in that order |
| Orchestrator.MarkersMakeRemote | cookiecutter/main.py:80-87 | any reference containing `git@` or `https://`, a local path included, is routed to the cloner |
| Orchestrator.PlainPathIsLocal | cookiecutter/main.py:81-91 | a reference with neither `@` nor `:` is not routed to the cloner |
| Orchestrator.GitHubShorthandIsCloned | cookiecutter/main.py:78-87 | `gh:path` without user abbreviations expands to a reference that is routed to the cloner |
| Orchestrator.LocalPathScenario | cookiecutter/main.py:78-93 | a non-empty local path with no colon, no `@` and no trailing `/` that is not a key is not expanded, not cloned, and its declaration file is `path/cookiecutter.json` |

## Left out

- Loading the user configuration (`get_user_config`), context generation (`generate_context`), prompting (`prompt_for_config`), cloning (`clone`) and file generation (`generate_files`) are not part of this model: each enters as an uninterpreted function in `Orchestrator.Environment`, and the run returns the repository directory and context that file generation receives. The merge of template defaults, `default_context` and `extra_context` happens inside context generation and is not claimed here.
- Failures of the collaborators are not modelled: the functions in `Orchestrator.Environment` are total, so a `clone`, `generate_context` or `prompt_for_config` call that raises and aborts the run (main.py:82, 96, 104) cannot be expressed; `Orchestrator.Cookiecutter` describes only runs in which every collaborator returns.
- The clock (`datetime.now`, `ctime`, `isoformat`), `os.path.abspath` and the package version are inputs: a formatted `Clock`, a function field and a string.
- Logging, the Python 2/3 switch and the default configuration path carry no behaviour and are not modelled.
- Strings.ReplaceSlot: models `str.format` only for patterns whose braces are `{0}` slots; escaped braces, named or other positional fields and format specifications (which the source would reject or treat differently) are not modelled, and other braces are copied literally.
- Strings.Partition: takes a single-character separator; the source only ever splits on `:`.
- Orchestrator.Join: follows the POSIX two-argument rule; Windows path joining is not modelled.
- Config.UserConfig: the configuration always has `cookiecutters_dir` and `default_context` (the loader fills in defaults); a configuration missing them, on which the source would raise `KeyError`, is not modelled. An `abbreviations` entry that is present but not a mapping is not modelled either.
- Context values are a small datatype (text, integers, nested mappings, named opaque objects); Python's dictionary insertion order is not modelled, only keys and values.
