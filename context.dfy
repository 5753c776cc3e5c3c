/**
 The template context and the order in which its last layers are laid on:
 the prompt's answers under the `cookiecutter` key, then the caller's extra
 globals, then the six runtime values, each later layer overwriting what
 came before.
 */
module Context {
  import opened Config

  /** A value of the context: text, a number, a nested mapping, or another object. */
  datatype Value =
    | Str(s: string)
    | Int(n: int)
    | Dict(entries: map<string, Value>)
    /** Anything else a caller may hand in, such as a filter function, by name. */
    | Opaque(name: string)

  type Context = map<string, Value>

  /** The key under which the template's own, prompted settings live. */
  const CookiecutterKey: string := "cookiecutter"

  /** The keys of the values the orchestrator injects last. */
  const RuntimeKeys: set<string> :=
    {"version", "repo_dir", "context_file", "current_year", "current_date", "current_date_iso"}

  /** The wall-clock reading, already formatted. */
  datatype Clock = Clock(year: int, ctime: string, isoformat: string)

  /** Merges layers in order, a later layer overwriting an earlier one on a shared key. */
  function MergeLayers(layers: seq<Context>): (merged: Context)
  {
    if layers == [] then map[]
    else MergeLayers(layers[..|layers| - 1]) + layers[|layers| - 1]
  }

  /** A key is present in the merge exactly when some layer has it. */
  lemma {:induction false} MergeLayersKeys(layers: seq<Context>, k: string)
    ensures k in MergeLayers(layers) <==> exists i :: 0 <= i < |layers| && k in layers[i]
  {
    if layers != [] {
      var init := layers[..|layers| - 1];
      MergeLayersKeys(init, k);
      if k in MergeLayers(init) {
        var i :| 0 <= i < |init| && k in init[i];
        assert layers[i] == init[i];
      }
      if i :| 0 <= i < |layers| - 1 && k in layers[i] {
        assert init[i] == layers[i];
      }
    }
  }

  /** Adding a layer on top overwrites the merge of the layers below. */
  lemma MergeLayersSnoc(layers: seq<Context>, top: Context)
    ensures MergeLayers(layers + [top]) == MergeLayers(layers) + top
  {
    assert (layers + [top])[..|layers|] == layers;
  }

  /** Four layers merge to the left-to-right union of the four. */
  lemma MergeFourLayers(l0: Context, l1: Context, l2: Context, l3: Context)
    ensures MergeLayers([l0, l1, l2, l3]) == l0 + l1 + l2 + l3
  {
    MergeLayersSnoc([], l0);
    assert [] + [l0] == [l0];
    assert map[] + l0 == l0;
    MergeLayersSnoc([l0], l1);
    assert [l0] + [l1] == [l0, l1];
    MergeLayersSnoc([l0, l1], l2);
    assert [l0, l1] + [l2] == [l0, l1, l2];
    MergeLayersSnoc([l0, l1, l2], l3);
    assert [l0, l1, l2] + [l3] == [l0, l1, l2, l3];
  }

  /** A key takes its value from the last layer that has it. */
  lemma {:induction false} MergeLayersLastWins(layers: seq<Context>, i: nat, k: string)
    requires i < |layers| && k in layers[i]
    requires forall j :: i < j < |layers| ==> k !in layers[j]
    ensures k in MergeLayers(layers) && MergeLayers(layers)[k] == layers[i][k]
  {
    if i < |layers| - 1 {
      var init := layers[..|layers| - 1];
      assert init[i] == layers[i];
      MergeLayersLastWins(init, i, k);
    }
  }

  /** The six runtime values, from the version, the absolute paths and the clock. */
  function RuntimeValues(version: string, absRepoDir: string, absContextFile: string, now: Clock): (runtime: Context)
    ensures runtime.Keys == RuntimeKeys
  {
    map[
      "version" := Str(version),
      "repo_dir" := Str(absRepoDir),
      "context_file" := Str(absContextFile),
      "current_year" := Int(now.year),
      "current_date" := Str(now.ctime),
      "current_date_iso" := Str(now.isoformat)
    ]
  }

  /** The caller's extra globals; absent ones add nothing. */
  function Globals(extraGlobals: Option<Context>): (globals: Context)
  {
    if extraGlobals.Some? then extraGlobals.value else map[]
  }

  /**
   The finished context: the generated context with its `cookiecutter`
   entry replaced by the prompt's answers, updated with the extra globals,
   then with the runtime values.
   */
  function FinishContext(generated: Context, prompted: Value, globals: Context, runtime: Context): (final: Context)
  {
    generated[CookiecutterKey := prompted] + globals + runtime
  }

  /**
   The finished context is the ordered merge of four layers: the generated
   context, the prompt's answers, the extra globals and the runtime values.
   */
  lemma FinishContextIsLayerMerge(generated: Context, prompted: Value, globals: Context, runtime: Context)
    ensures FinishContext(generated, prompted, globals, runtime)
         == MergeLayers([generated, map[CookiecutterKey := prompted], globals, runtime])
  {
    var answers := map[CookiecutterKey := prompted];
    MergeFourLayers(generated, answers, globals, runtime);
    assert generated[CookiecutterKey := prompted] == generated + answers;
  }

  /**
   Precedence in the finished context: a runtime key has its runtime value;
   otherwise an extra global wins, including over the prompt's answers;
   otherwise `cookiecutter` holds the prompt's answers; every other key keeps
   the generated value. Nothing else is added.
   */
  lemma ContextPrecedence(generated: Context, prompted: Value, globals: Context, runtime: Context, k: string)
    ensures var final := FinishContext(generated, prompted, globals, runtime);
      && (k in final <==> k in generated || k == CookiecutterKey || k in globals || k in runtime)
      && (k in runtime ==> final[k] == runtime[k])
      && (k !in runtime && k in globals ==> final[k] == globals[k])
      && (k !in runtime && k !in globals && k == CookiecutterKey ==> final[k] == prompted)
      && (k !in runtime && k !in globals && k != CookiecutterKey && k in generated ==> final[k] == generated[k])
  {
    var layers := [generated, map[CookiecutterKey := prompted], globals, runtime];
    FinishContextIsLayerMerge(generated, prompted, globals, runtime);
    if k in runtime {
      MergeLayersLastWins(layers, 3, k);
    } else if k in globals {
      MergeLayersLastWins(layers, 2, k);
    } else if k == CookiecutterKey {
      MergeLayersLastWins(layers, 1, k);
    } else if k in generated {
      MergeLayersLastWins(layers, 0, k);
    }
  }

  /** Whatever earlier layers hold, the runtime values are the ones left standing. */
  lemma RuntimeValuesWin(generated: Context, prompted: Value, extraGlobals: Option<Context>,
                         version: string, absRepoDir: string, absContextFile: string, now: Clock)
    ensures var final := FinishContext(generated, prompted, Globals(extraGlobals),
                                       RuntimeValues(version, absRepoDir, absContextFile, now));
      && RuntimeKeys <= final.Keys
      && final["version"] == Str(version)
      && final["repo_dir"] == Str(absRepoDir)
      && final["context_file"] == Str(absContextFile)
      && final["current_year"] == Int(now.year)
      && final["current_date"] == Str(now.ctime)
      && final["current_date_iso"] == Str(now.isoformat)
  {
  }

  /** Layers `{a:1,b:2}`, `{b:3,c:4}`, `{c:5,d:6}`, `{a:99}` merge to `{a:99,b:3,c:5,d:6}`. */
  lemma FourLayerExample()
    ensures MergeLayers([map["a" := Int(1), "b" := Int(2)], map["b" := Int(3), "c" := Int(4)],
                         map["c" := Int(5), "d" := Int(6)], map["a" := Int(99)]])
         == map["a" := Int(99), "b" := Int(3), "c" := Int(5), "d" := Int(6)]
  {
    MergeFourLayers(map["a" := Int(1), "b" := Int(2)], map["b" := Int(3), "c" := Int(4)],
                    map["c" := Int(5), "d" := Int(6)], map["a" := Int(99)]);
  }
}
