/** The loader factory: which loader, if any, handles a file extension.

    A `LoaderFactory` stores the collection of file extensions it targets.
    Asked for the loader of an extension it answers "none" when the extension
    is not targeted, the first loader variant that supports it otherwise, and
    raises `NoLoaderFoundError` when no variant supports a targeted extension.
    Parsing itself (YAML, INI) is done by foreign libraries and is not part of
    this model. */
module Loaders {
  import opened Wrappers

  // ---------------------------------------------------------------------------
  // Errors
  // ---------------------------------------------------------------------------

  const NoLoaderFoundPrefix: string := "No loader found for file extension `"
  const NoLoaderFoundSuffix: string := "` in LoaderFactory."
  const NoTargetFileExtensionsMessage: string :=
    "The LoaderFactory's `target_file_extensions` attribute must not be empty."

  /** The two exceptions of the loader family, as side-effect-free values. */
  datatype LoaderError =
    | NoLoaderFoundError(fileExtension: string)
    | NoTargetFileExtensionsError
  {
    /** The human-readable message the exception carries. */
    function Msg(): (m: string)
      ensures NoLoaderFoundError? ==>
        |m| == |NoLoaderFoundPrefix| + |fileExtension| + |NoLoaderFoundSuffix| &&
        m[..|NoLoaderFoundPrefix|] == NoLoaderFoundPrefix &&
        m[|NoLoaderFoundPrefix|..|m| - |NoLoaderFoundSuffix|] == fileExtension &&
        m[|m| - |NoLoaderFoundSuffix|..] == NoLoaderFoundSuffix
      ensures NoTargetFileExtensionsError? ==> m == NoTargetFileExtensionsMessage
    {
      match this
      case NoLoaderFoundError(ext) => NoLoaderFoundPrefix + ext + NoLoaderFoundSuffix
      case NoTargetFileExtensionsError => NoTargetFileExtensionsMessage
    }
  }

  /** Reads the file extension back out of a `NoLoaderFoundError` message, if
      the text has that message's shape. */
  function ExtensionInMessage(m: string): Option<string>
  {
    if |m| >= |NoLoaderFoundPrefix| + |NoLoaderFoundSuffix|
       && m[..|NoLoaderFoundPrefix|] == NoLoaderFoundPrefix
       && m[|m| - |NoLoaderFoundSuffix|..] == NoLoaderFoundSuffix
    then Some(m[|NoLoaderFoundPrefix|..|m| - |NoLoaderFoundSuffix|])
    else None
  }

  /** The message of a `NoLoaderFoundError` records exactly the extension it
      was raised for: it can be read back out, so two different extensions
      never give the same message. */
  lemma MessageRecordsExtension(ext: string)
    ensures ExtensionInMessage(NoLoaderFoundError(ext).Msg()) == Some(ext)
  {
    var m := NoLoaderFoundError(ext).Msg();
    assert |m| >= |NoLoaderFoundPrefix| + |NoLoaderFoundSuffix|;
  }

  lemma MessageInjective(a: string, b: string)
    ensures NoLoaderFoundError(a).Msg() == NoLoaderFoundError(b).Msg() <==> a == b
  {
    if NoLoaderFoundError(a).Msg() == NoLoaderFoundError(b).Msg() {
      MessageRecordsExtension(a);
      MessageRecordsExtension(b);
    }
  }

  // ---------------------------------------------------------------------------
  // Loader variants
  // ---------------------------------------------------------------------------

  /** The concrete loader classes. A loader instance holds no state that
      matters to resolution, so an instance is represented by its class. */
  datatype LoaderKind = YamlLoader | IniLoader
  {
    /** The class's fixed `_SUPPORTED_EXTS` list. */
    function SupportedExts(): (exts: seq<string>)
      ensures |exts| > 0
    {
      match this
      case YamlLoader => [".yml", ".yaml"]
      case IniLoader => [".ini", ".config"]
    }

    /** Membership of `fileExt` in `SupportedExts()`. The miss path, which
        returns nothing in Python, is `false`. The contract spells out, per
        variant, exactly which extensions are supported: matching is exact and
        case-sensitive, with no normalisation of the leading dot. */
    function CheckExtensionSupported(fileExt: string): (supported: bool)
      ensures supported <==>
        match this
        case YamlLoader => fileExt == ".yml" || fileExt == ".yaml"
        case IniLoader => fileExt == ".ini" || fileExt == ".config"
    {
      fileExt in SupportedExts()
    }
  }

  /** `Loader.__subclasses__()`: the variants in the order they are defined. */
  const LoaderSubclasses: seq<LoaderKind> := [YamlLoader, IniLoader]

  /** No extension is supported by two variants, so the scan order never
      decides between two candidates. */
  lemma VariantsDisjoint(fileExt: string, i: nat, j: nat)
    requires i < j < |LoaderSubclasses|
    requires LoaderSubclasses[i].CheckExtensionSupported(fileExt)
    ensures !LoaderSubclasses[j].CheckExtensionSupported(fileExt)
  {
  }

  /** The index of the first variant in `table` that supports `fileExt`. */
  function FirstSupporting(table: seq<LoaderKind>, fileExt: string): (r: Option<nat>)
    ensures r.Some? ==>
      r.value < |table| && table[r.value].CheckExtensionSupported(fileExt) &&
      forall j :: 0 <= j < r.value ==> !table[j].CheckExtensionSupported(fileExt)
    ensures r.None? <==>
      forall j :: 0 <= j < |table| ==> !table[j].CheckExtensionSupported(fileExt)
  {
    if table == [] then None
    else if table[0].CheckExtensionSupported(fileExt) then Some(0)
    else
      match FirstSupporting(table[1..], fileExt)
      case None => None
      case Some(i) => Some(i + 1)
  }

  // ---------------------------------------------------------------------------
  // The factory
  // ---------------------------------------------------------------------------

  /** What the caller hands to the `target_file_exts` setter: Python's `None`,
      a bare string, or a collection of strings. */
  datatype TargetArg =
    | NoValue
    | Single(ext: string)
    | Collection(exts: seq<string>)

  /** Python truthiness of the setter's argument: `None`, `''` and `[]` are
      false. */
  function IsFalsy(arg: TargetArg): (falsy: bool)
    ensures arg.NoValue? ==> falsy
    ensures arg.Single? ==> (falsy <==> |arg.ext| == 0)
    ensures arg.Collection? ==> (falsy <==> |arg.exts| == 0)
  {
    match arg
    case NoValue => true
    case Single(s) => s == ""
    case Collection(xs) => xs == []
  }

  /** What the setter stores for `arg`, or the error it raises. */
  function Validated(arg: TargetArg): (r: Result<seq<string>, LoaderError>)
    ensures r.Failure? <==> IsFalsy(arg)
    ensures r.Failure? ==> r.error == NoTargetFileExtensionsError
    ensures r.Success? ==> |r.value| > 0
    ensures r.Success? && arg.Single? ==> r.value == [arg.ext]
    ensures r.Success? && arg.Collection? ==> r.value == arg.exts
  {
    match arg
    case NoValue => Failure(NoTargetFileExtensionsError)
    case Single(s) => if s == "" then Failure(NoTargetFileExtensionsError) else Success([s])
    case Collection(xs) => if xs == [] then Failure(NoTargetFileExtensionsError) else Success(xs)
  }

  /** After a successful set, an extension is targeted exactly when it is the
      bare string given or an element of the collection given. */
  lemma StoredMembership(arg: TargetArg, fileExt: string)
    requires !IsFalsy(arg)
    ensures Validated(arg).Success?
    ensures fileExt in Validated(arg).value <==>
      (arg.Single? && fileExt == arg.ext) || (arg.Collection? && fileExt in arg.exts)
  {
  }

  /** The outcome of `get_loader`. */
  datatype Resolution =
    | NotTargeted                  // `None`
    | Found(loader: LoaderKind)    // a fresh instance of this variant
    | Raised(error: LoaderError)   // the raised exception

  /** `get_loader` as a function of the stored targets and the extension. */
  function Resolve(targets: seq<string>, fileExt: string): (r: Resolution)
    ensures r.NotTargeted? <==> fileExt !in targets
    ensures r.Found? ==>
      r.loader in LoaderSubclasses && r.loader.CheckExtensionSupported(fileExt)
    ensures r.Raised? <==>
      fileExt in targets &&
      forall j :: 0 <= j < |LoaderSubclasses| ==> !LoaderSubclasses[j].CheckExtensionSupported(fileExt)
    ensures r.Raised? ==> r.error == NoLoaderFoundError(fileExt)
  {
    if fileExt !in targets then NotTargeted
    else
      match FirstSupporting(LoaderSubclasses, fileExt)
      case Some(i) => Found(LoaderSubclasses[i])
      case None => Raised(NoLoaderFoundError(fileExt))
  }

  /** First match wins: for a targeted extension, the variant returned is the
      earliest one in the scan order that supports it. */
  lemma ResolveFirstMatch(targets: seq<string>, fileExt: string, i: nat)
    requires fileExt in targets
    requires i < |LoaderSubclasses|
    requires LoaderSubclasses[i].CheckExtensionSupported(fileExt)
    requires forall j :: 0 <= j < i ==> !LoaderSubclasses[j].CheckExtensionSupported(fileExt)
    ensures Resolve(targets, fileExt) == Found(LoaderSubclasses[i])
  {
    var k := FirstSupporting(LoaderSubclasses, fileExt);
    assert k.Some?;
    assert !(k.value < i);
    assert !(i < k.value);
  }

  /** Because the variants' lists are disjoint, a loader is returned exactly
      when the extension is targeted and that loader supports it. */
  lemma ResolveFoundIff(targets: seq<string>, fileExt: string, k: LoaderKind)
    ensures Resolve(targets, fileExt) == Found(k) <==>
      fileExt in targets && k.CheckExtensionSupported(fileExt)
  {
    if fileExt in targets && k.CheckExtensionSupported(fileExt) {
      var r := Resolve(targets, fileExt);
      assert k in LoaderSubclasses;
      assert r.Found?;
    }
  }

  /** Resolution depends on the target collection only through membership:
      order and duplicates do not matter. */
  lemma ResolveMembershipOnly(t1: seq<string>, t2: seq<string>, fileExt: string)
    requires fileExt in t1 <==> fileExt in t2
    ensures Resolve(t1, fileExt) == Resolve(t2, fileExt)
  {
  }

  /** Holds the target-extension collection and resolves extensions to
      loaders. */
  class LoaderFactory {
    /** `_target_file_exts`: the targeted extensions. */
    var storedExts: seq<string>

    /** A factory only ever stores what the setter accepted: a non-empty
        collection. */
    ghost predicate Valid()
      reads this
    {
      |storedExts| > 0
    }

    /** `LoaderFactory(target_file_exts)` for an argument the setter accepts.
        The raising case is `Create`. */
    constructor (arg: TargetArg)
      requires !IsFalsy(arg)
      ensures Valid()
      ensures Validated(arg) == Success(storedExts)
    {
      new;
      var err := SetTargetFileExts(arg);
    }

    /** `LoaderFactory(target_file_exts)`: a new factory, or the
        `NoTargetFileExtensionsError` the setter raises. */
    static method Create(arg: TargetArg) returns (r: Result<LoaderFactory, LoaderError>)
      ensures r.Failure? <==> IsFalsy(arg)
      ensures r.Failure? ==> r.error == NoTargetFileExtensionsError
      ensures r.Success? ==>
        fresh(r.value) && r.value.Valid() && Validated(arg) == Success(r.value.storedExts)
    {
      if IsFalsy(arg) {
        r := Failure(NoTargetFileExtensionsError);
      } else {
        var factory := new LoaderFactory(arg);
        r := Success(factory);
      }
    }

    /** The `target_file_exts` getter. */
    function TargetFileExts(): (exts: seq<string>)
      reads this
      requires Valid()
      ensures |exts| > 0
    {
      storedExts
    }

    /** The `target_file_exts` setter. A falsy argument raises
        `NoTargetFileExtensionsError` before anything is stored; a bare
        string is stored as the one-element list holding it. */
    method SetTargetFileExts(arg: TargetArg) returns (err: Option<LoaderError>)
      modifies this
      ensures err.Some? <==> IsFalsy(arg)
      ensures err.Some? ==>
        err.value == NoTargetFileExtensionsError && storedExts == old(storedExts)
      ensures err.None? ==> Validated(arg) == Success(storedExts)
      ensures old(Valid()) || err.None? ==> Valid()
    {
      if IsFalsy(arg) {
        err := Some(NoTargetFileExtensionsError);
        return;
      }
      var exts := if arg.Single? then [arg.ext] else arg.exts;
      storedExts := exts;
      err := None;
    }

    /** `get_loader(file_ext)`: `None` for an untargeted extension, else a
        scan of the variants in order for the first that supports it, else a
        raised `NoLoaderFoundError`. Changes nothing. */
    method GetLoader(fileExt: string) returns (r: Resolution)
      ensures r == Resolve(storedExts, fileExt)
      ensures r.NotTargeted? <==> fileExt !in storedExts
      ensures r.Found? ==> r.loader.CheckExtensionSupported(fileExt)
      ensures r.Raised? ==> r.error == NoLoaderFoundError(fileExt)
    {
      if fileExt !in storedExts {
        return NotTargeted;
      }
      for i := 0 to |LoaderSubclasses|
        invariant forall j :: 0 <= j < i ==> !LoaderSubclasses[j].CheckExtensionSupported(fileExt)
      {
        var loader := LoaderSubclasses[i];
        if loader.CheckExtensionSupported(fileExt) {
          ResolveFirstMatch(storedExts, fileExt, i);
          return Found(loader);
        }
      }
      return Raised(NoLoaderFoundError(fileExt));
    }
  }

  /** The repository's factory test scenarios, stated about the class: the
      results of each scenario are returned and pinned down by the contract. */
  method FactoryScenarios()
    returns (single: seq<string>, empty: Result<LoaderFactory, LoaderError>,
             yml: Resolution, ini: Resolution, invalid: Resolution, noLoader: Resolution)
    ensures single == [".yml"]
    ensures empty.Failure? && empty.error == NoTargetFileExtensionsError
    ensures yml == Found(YamlLoader)
    ensures ini == Found(IniLoader)
    ensures invalid == NotTargeted
    ensures noLoader == Raised(NoLoaderFoundError(".noloader"))
  {
    var singleFactory := new LoaderFactory(Single(".yml"));
    single := singleFactory.TargetFileExts();

    empty := LoaderFactory.Create(Collection([]));

    var factory := new LoaderFactory(Collection([".yml", ".yaml", ".ini"]));
    yml := factory.GetLoader(".yml");
    ini := factory.GetLoader(".ini");
    invalid := factory.GetLoader(".invalid");

    var noLoaderFactory := new LoaderFactory(Single(".noloader"));
    noLoader := noLoaderFactory.GetLoader(".noloader");
  }
}
