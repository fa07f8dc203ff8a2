/** The option handling and the path and entry derivations of the build
    helper class `WebpackHelper` (webpack.helper.js). */
module WebpackHelper {
  import opened Wrappers
  import opened Text
  import opened Paths

  /** The JavaScript values an options object can hold. Numbers are
      integers here; arrays are objects, as `typeof` reports them. */
  datatype JsValue =
    | Undefined
    | Null
    | Bool(b: bool)
    | Number(n: int)
    | Str(s: string)
    | Obj(props: map<string, JsValue>)
    | Function

  function TypeOf(v: JsValue): string {
    match v
    case Undefined => "undefined"
    case Null => "object"
    case Bool(_) => "boolean"
    case Number(_) => "number"
    case Str(_) => "string"
    case Obj(_) => "object"
    case Function => "function"
  }

  /** JavaScript truthiness, as used by `opts.dev ? true : false`. */
  predicate Truthy(v: JsValue) {
    match v
    case Undefined => false
    case Null => false
    case Bool(b) => b
    case Number(n) => n != 0
    case Str(s) => s != ""
    case Obj(_) => true
    case Function => true
  }

  /** Property access `v.name` (undefined when absent). */
  function Prop(v: JsValue, name: string): JsValue {
    if v.Obj? && name in v.props then v.props[name] else Undefined
  }

  predicate IsNullish(v: JsValue) {
    v == Undefined || v == Null
  }

  /** `v ?? fallback`. */
  function OrElse(v: JsValue, fallback: JsValue): JsValue {
    if IsNullish(v) then fallback else v
  }

  /** The normalised options kept in `this.opts`. */
  datatype Options = Options(dev: bool, input: string, output: string, data: JsValue)

  const DefaultInput := "./src"
  const DefaultOutput := "./dist"
  const Defaults := Options(false, DefaultInput, DefaultOutput, Obj(map[]))

  function InputOf(opts: JsValue): JsValue { OrElse(Prop(opts, "input"), Str(DefaultInput)) }
  function OutputOf(opts: JsValue): JsValue { OrElse(Prop(opts, "output"), Str(DefaultOutput)) }
  function DataOf(opts: JsValue): JsValue { OrElse(Prop(opts, "data"), Obj(map[])) }

  /** The constructor of `WebpackHelper`: defaults for a missing options
      object or missing fields, and the error it throws otherwise. */
  function NewOptions(opts: JsValue): (r: Result<Options>)
    ensures IsNullish(opts) ==> r == Ok(Defaults)
    ensures r.Ok? <==> (IsNullish(opts) ||
      (opts.Obj? && InputOf(opts).Str? && OutputOf(opts).Str? && TypeOf(DataOf(opts)) == "object"))
    ensures r.Ok? && !IsNullish(opts) ==>
      && r.value.dev == Truthy(Prop(opts, "dev"))
      && Str(r.value.input) == InputOf(opts)
      && Str(r.value.output) == OutputOf(opts)
      && r.value.data == DataOf(opts) && r.value.data.Obj?
    ensures !opts.Obj? && !IsNullish(opts) ==> r == Err("opts invalid")
    ensures opts.Obj? && !InputOf(opts).Str? ==> r == Err("opts.input invalid")
    ensures opts.Obj? && InputOf(opts).Str? && !OutputOf(opts).Str? ==> r == Err("opts.output invalid")
    ensures opts.Obj? && InputOf(opts).Str? && OutputOf(opts).Str? && TypeOf(DataOf(opts)) != "object" ==>
      r == Err("opts.data invalid")
  {
    if IsNullish(opts) then Ok(Defaults)
    else if TypeOf(opts) == "object" then
      var input := InputOf(opts);
      if !input.Str? then Err("opts.input invalid")
      else
        var output := OutputOf(opts);
        if !output.Str? then Err("opts.output invalid")
        else
          var data := DataOf(opts);
          if TypeOf(data) != "object" then Err("opts.data invalid")
          else Ok(Options(Truthy(Prop(opts, "dev")), input.s, output.s, data))
    else Err("opts invalid")
  }

  /** What the process supplies: `__dirname` and `process.cwd()`. */
  datatype Env = Env(dirname: string, cwd: Cwd)

  /** The entry name of a TypeScript file: its path below the input
      directory without the trailing `.ts`. */
  function EntryName(o: Options, env: Env, file: string): string {
    StripSuffix(Relative(env.cwd, o.input, file), ".ts")
  }

  /** `createEntry(filepath)`: the one entry for a given file. */
  function CreateEntry(o: Options, env: Env, file: string): (r: map<string, string>)
    ensures |r| == 1 && EntryName(o, env, file) in r
    ensures r[EntryName(o, env, file)] == "./" + file
  {
    map[EntryName(o, env, file) := "./" + file]
  }

  /** Assigning key/value pairs one by one into an empty object; a later
      pair overwrites an earlier one with the same key. */
  function Assign(pairs: seq<(string, string)>): map<string, string>
    decreases |pairs|
  {
    if pairs == [] then map[]
    else
      var last := pairs[|pairs| - 1];
      Assign(pairs[..|pairs| - 1])[last.0 := last.1]
  }

  /** The entry name and source of each file, in glob order. */
  function EntryPairs(o: Options, env: Env, files: seq<string>): (r: seq<(string, string)>)
    ensures |r| == |files|
    ensures forall i :: 0 <= i < |files| ==> r[i] == (EntryName(o, env, files[i]), "./" + files[i])
  {
    seq(|files|, i requires 0 <= i < |files| => (EntryName(o, env, files[i]), "./" + files[i]))
  }

  const StyleEntry := "style"
  const StyleSource := "./style.scss"

  /** `createEntry()`: an entry for every TypeScript file found under the
      input directory (`files`, the result of the glob), and the style
      entry, which always wins. */
  method CreateAllEntries(o: Options, env: Env, files: seq<string>) returns (entries: map<string, string>)
    ensures entries == Assign(EntryPairs(o, env, files))[StyleEntry := StyleSource]
    ensures StyleEntry in entries && entries[StyleEntry] == StyleSource
  {
    ghost var pairs := EntryPairs(o, env, files);
    entries := map[];
    for i := 0 to |files|
      invariant entries == Assign(pairs[..i])
    {
      assert pairs[..i + 1][..i] == pairs[..i];
      entries := entries[EntryName(o, env, files[i]) := "./" + files[i]];
    }
    assert pairs[..|files|] == pairs;
    entries := entries[StyleEntry := StyleSource];
  }

  /** Every pair's key is assigned, and nothing else. */
  lemma {:induction false} AssignKeys(pairs: seq<(string, string)>, key: string)
    ensures key in Assign(pairs) <==> exists i :: 0 <= i < |pairs| && pairs[i].0 == key
    decreases |pairs|
  {
    if pairs != [] {
      var init := pairs[..|pairs| - 1];
      AssignKeys(init, key);
      if key in Assign(pairs) && key != pairs[|pairs| - 1].0 {
        var i :| 0 <= i < |init| && init[i].0 == key;
        assert pairs[i] == init[i];
      }
      if exists i :: 0 <= i < |pairs| && pairs[i].0 == key {
        var i :| 0 <= i < |pairs| && pairs[i].0 == key;
        if i < |init| {
          assert init[i] == pairs[i];
        }
      }
    }
  }

  /** A key holds the value of the last pair with that key. */
  lemma {:induction false} AssignLastWins(pairs: seq<(string, string)>, i: nat)
    requires i < |pairs|
    requires forall j :: i < j < |pairs| ==> pairs[j].0 != pairs[i].0
    ensures pairs[i].0 in Assign(pairs) && Assign(pairs)[pairs[i].0] == pairs[i].1
    decreases |pairs|
  {
    if i < |pairs| - 1 {
      var init := pairs[..|pairs| - 1];
      assert init[i] == pairs[i];
      forall j | i < j < |init|
        ensures init[j].0 != init[i].0
      {
        assert init[j] == pairs[j];
      }
      AssignLastWins(init, i);
    }
  }

  /** The entries of `createEntry()`: the style entry, and an entry for
      exactly the names of the files found, each pointing at the last file
      found with that name (unless that name is "style"). */
  lemma AllEntries(o: Options, env: Env, files: seq<string>, entries: map<string, string>)
    requires entries == Assign(EntryPairs(o, env, files))[StyleEntry := StyleSource]
    ensures forall name :: name in entries <==>
      (name == StyleEntry || exists i :: 0 <= i < |files| && EntryName(o, env, files[i]) == name)
    ensures forall i :: (0 <= i < |files| && EntryName(o, env, files[i]) != StyleEntry &&
      (forall j :: i < j < |files| ==> EntryName(o, env, files[j]) != EntryName(o, env, files[i]))) ==>
      entries[EntryName(o, env, files[i])] == "./" + files[i]
  {
    var pairs := EntryPairs(o, env, files);
    forall name
      ensures name in entries <==>
        (name == StyleEntry || exists i :: 0 <= i < |files| && EntryName(o, env, files[i]) == name)
    {
      AssignKeys(pairs, name);
      if exists i :: 0 <= i < |files| && EntryName(o, env, files[i]) == name {
        var i :| 0 <= i < |files| && EntryName(o, env, files[i]) == name;
        assert pairs[i].0 == name;
      }
    }
    forall i | 0 <= i < |files| && EntryName(o, env, files[i]) != StyleEntry &&
      (forall j :: i < j < |files| ==> EntryName(o, env, files[j]) != EntryName(o, env, files[i]))
      ensures entries[EntryName(o, env, files[i])] == "./" + files[i]
    {
      AssignLastWins(pairs, i);
    }
  }

  /** `getEntryPath(filepath)`: where webpack writes the script compiled
      from a TypeScript file. */
  function GetEntryPath(o: Options, env: Env, file: string): string {
    Join([env.dirname, o.output, ReplaceSuffix(Relative(env.cwd, o.input, file), ".ts", ".js")])
  }

  /** `getHtmlPath(template)`: where webpack writes a rendered page. */
  function GetHtmlPath(o: Options, env: Env, template: string): string {
    Join([env.dirname, o.output, Relative(env.cwd, o.input, template)])
  }

  /** `getCssPath(filename)`: where webpack writes a stylesheet. */
  function GetCssPath(o: Options, env: Env, filename: string): string {
    Join([env.dirname, o.output, filename])
  }

  /** A stylesheet is written directly in the output directory, under its
      own name. */
  lemma CssPathInOutput(o: Options, env: Env, filename: string)
    requires Plain(filename)
    ensures Resolve(env.cwd, GetCssPath(o, env, filename)) == Resolve(env.cwd, Join([env.dirname, o.output])) + [filename]
  {
    var x := Concat(NonEmpty([env.dirname, o.output]));
    var full := if x == "" then filename else x + "/" + filename;
    assert Concat(NonEmpty([env.dirname, o.output, filename])) == full by {
      var d, out := env.dirname, o.output;
      assert [d, out, filename][1..] == [out, filename];
      assert [out, filename][1..] == [filename];
      assert NonEmpty([filename]) == [filename];
      assert NonEmpty([out]) == (if out == "" then [] else [out]) by {
        assert [out][1..] == [];
      }
      if d == "" && out == "" {
        assert NonEmpty([d, out]) == [];
      } else if d == "" {
        assert NonEmpty([d, out]) == [out];
        assert x == out;
        assert NonEmpty([d, out, filename]) == [out, filename];
      } else if out == "" {
        assert NonEmpty([d, out]) == [d];
        assert x == d;
        assert NonEmpty([d, out, filename]) == [d, filename];
      } else {
        assert NonEmpty([d, out]) == [d, out];
        assert [d, out][1..] == [out];
        assert Concat([out]) == out;
        assert Concat([d, out]) == d + "/" + out;
        assert NonEmpty([d, out, filename]) == [d, out, filename];
        assert Concat([out, filename]) == out + "/" + filename;
        assert Concat([d, out, filename]) == d + "/" + (out + "/" + filename);
        assert d + "/" + (out + "/" + filename) == (d + "/" + out) + "/" + filename;
      }
    }
    NormalizeResolves(env.cwd, full);
    ResolveAppend(env.cwd, x, [filename]);
    NormalizeResolves(env.cwd, x);
  }

  /** A page at `rel` below the input directory is written to `rel` below
      the output directory. */
  lemma HtmlPathReroots(o: Options, env: Env, rel: seq<string>)
    requires |rel| >= 1 && AllPlain(rel)
    ensures GetHtmlPath(o, env, Join([o.input, Concat(rel)])) == Join([env.dirname, o.output, Concat(rel)])
  {
    RelativeOfJoin(env.cwd, o.input, rel);
  }

  /** A script `stem.ts` below the input directory is written as `stem.js`
      at the same place below the output directory. */
  lemma EntryPathReroots(o: Options, env: Env, rel: seq<string>)
    requires |rel| >= 1 && AllPlain(rel) && EndsWith(Concat(rel), ".ts")
    ensures var r := Concat(rel);
            GetEntryPath(o, env, Join([o.input, r])) == Join([env.dirname, o.output, StripSuffix(r, ".ts") + ".js"])
  {
    RelativeOfJoin(env.cwd, o.input, rel);
  }

  /** A script `stem.ts` below the input directory becomes the single
      entry `stem`, pointing at the script's path. */
  lemma EntryNameOfInputFile(o: Options, env: Env, rel: seq<string>)
    requires |rel| >= 1 && AllPlain(rel) && EndsWith(Concat(rel), ".ts")
    ensures var file := Join([o.input, Concat(rel)]);
            CreateEntry(o, env, file) == map[StripSuffix(Concat(rel), ".ts") := "./" + file]
            && StripSuffix(Concat(rel), ".ts") + ".ts" == Concat(rel)
  {
    RelativeOfJoin(env.cwd, o.input, rel);
  }
}
