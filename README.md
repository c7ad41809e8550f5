# Loader factory: extension-to-loader resolution

This project models the core of a small configuration-loading facade. The facade picks a parser by file extension. A `LoaderFactory` holds the collection of extensions it targets. The `target_file_exts` setter validates that collection:

- a falsy value raises `NoTargetFileExtensionsError`;
- a bare string is stored as a one-element list.

`get_loader(file_ext)` has three outcomes:

- `None` when the extension is not targeted;
- a new instance of the first loader class, in definition order, whose `_SUPPORTED_EXTS` contains the extension;
- a raised `NoLoaderFoundError` carrying the extension, when no class supports it.

There are two loader classes:

- `YamlLoader` supports `.yml` and `.yaml`;
- `IniLoader` supports `.ini` and `.config`.

Files:

- `wrappers.dfy`: `Option` and `Result`.
- `loaders.dfy`: module `Loaders`. It holds:
  - the error values and their messages;
  - the loader classes, as the datatype `LoaderKind`;
  - the ordered class table `LoaderSubclasses`, which stands in for `Loader.__subclasses__()`;
  - the spec functions `Validated` (the setter) and `Resolve` (`get_loader`);
  - the class `LoaderFactory`. Its field `storedExts` is `_target_file_exts`. Its setter and its looping `GetLoader` are proved against those functions.

Exceptions become values:

- the setter returns `Some(error)`;
- `get_loader` returns `Raised(error)`;
- the Python constructor, which can raise, becomes `LoaderFactory.Create`, which returns a `Result`.

`GetLoader` has no `modifies` clause, so it cannot change the stored collection.

Python truthiness of the setter argument is modelled by `IsFalsy`. `None`, `''` and `[]` are falsy.

On a miss, `check_extension_supported` falls off the end and returns `None`. It is modelled as `false`.

## Model

| member | source | states |
|---|---|---|
| `Loaders.LoaderError.Msg` | loaders/loaders.py:37-55 | `NoLoaderFoundError`'s message is the fixed prefix, then exactly the extension, then the fixed suffix. `NoTargetFileExtensionsError` has its fixed message. |
| `Loaders.MessageRecordsExtension` | loaders/loaders.py:44-45 | The extension can be read back out of a `NoLoaderFoundError` message. |
| `Loaders.MessageInjective` | loaders/loaders.py:44-45 | Two `NoLoaderFoundError` messages are equal if and only if their extensions are equal. |
| `Loaders.LoaderKind.SupportedExts` | loaders/loaders.py:141-162 | Every loader class declares at least one supported extension. |
| `Loaders.LoaderKind.CheckExtensionSupported` | loaders/loaders.py:129-162 | It holds if and only if the extension is exactly one of `.yml`/`.yaml` (YAML) or `.ini`/`.config` (INI). Matching is case-sensitive, and the leading dot is not normalised. A miss is `false`. |
| `Loaders.VariantsDisjoint` | loaders/loaders.py:141-162 | No extension is supported by two loader classes. |
| `Loaders.FirstSupporting` | loaders/loaders.py:104-106 | The result is the index of a class that supports the extension, with no earlier class supporting it. It is `None` if and only if no class supports the extension. |
| `Loaders.IsFalsy` | loaders/loaders.py:86 | `None` is falsy. A bare string is falsy if and only if it is empty, and so is a collection. |
| `Loaders.Validated` | loaders/loaders.py:85-91 | It fails if and only if the argument is falsy, and the error is `NoTargetFileExtensionsError`. Otherwise it stores a non-empty collection: `[s]` for a bare string `s`, or the collection itself. |
| `Loaders.StoredMembership` | loaders/loaders.py:88-91 | After a successful set, an extension is targeted if and only if it is the bare string given or an element of the collection given. |
| `Loaders.Resolve` | loaders/loaders.py:93-108 | The result is `None` if and only if the extension is not targeted. A returned loader supports the extension. `NoLoaderFoundError(ext)` is raised if and only if the extension is targeted and no class supports it. |
| `Loaders.ResolveFirstMatch` | loaders/loaders.py:104-106 | First match wins. For a targeted extension, the loader returned is the earliest class in the scan order that supports it. |
| `Loaders.ResolveFoundIff` | loaders/loaders.py:102-106 | Loader `k` is returned if and only if the extension is targeted and `k` supports it. |
| `Loaders.ResolveMembershipOnly` | loaders/loaders.py:102-103 | Resolution depends on the stored collection only through membership of the extension. |
| `Loaders.LoaderFactory.constructor` | loaders/loaders.py:59-68 | Construction with an accepted argument runs the setter. The stored collection is then what `Validated` accepts. |
| `Loaders.LoaderFactory.Create` | loaders/loaders.py:59-68 | A falsy argument gives `NoTargetFileExtensionsError` and no factory. Otherwise the result is a fresh, valid factory storing the validated collection. |
| `Loaders.LoaderFactory.TargetFileExts` | loaders/loaders.py:70-75 | The getter returns the stored collection. It is never empty as long as every update goes through the setter (see Left out). |
| `Loaders.LoaderFactory.SetTargetFileExts` | loaders/loaders.py:77-91 | A falsy argument raises `NoTargetFileExtensionsError` and leaves the stored collection unchanged. Otherwise the stored collection becomes the validated one. The non-empty invariant is kept. |
| `Loaders.LoaderFactory.GetLoader` | loaders/loaders.py:93-108 | Its result equals `Resolve(stored, ext)`: `None` if and only if the extension is untargeted, a loader that supports the extension, or `NoLoaderFoundError(ext)`. The scan loop's invariant is that no class scanned so far supports the extension. |
| `Loaders.FactoryScenarios` | tests/test_loaders.py:19-65 | Each scenario matches the repository's tests, stated about the class: `'.yml'` is stored as `['.yml']`, `[]` gives `NoTargetFileExtensionsError`, `.yml` resolves to YAML and `.ini` to INI, `.invalid` gives `None`, and `.noloader` gives `NoLoaderFoundError('.noloader')`. |

## Left out

- `YamlLoader.load` (loaders/loaders.py:147-155) is not modelled: it is file I/O plus a call into PyYAML.
- `IniLoader.load` and `_add_section_head` (loaders/loaders.py:164-194) are not modelled. They consist of file I/O and calls into `configparser`. That includes the `[__headless__]` header repair and the reshaping of the parser's output.
- The `print` in `LoaderError.__init__` is left out because it is console output. Exceptions are plain values with a `Msg()` function.
- Python exception plumbing is not modelled. That covers multiple inheritance from `AttributeError`/`ValueError` and the `__repr__`/`__str__` aliasing.
- `Loader.__subclasses__()` reflection is replaced by the fixed table `LoaderSubclasses = [YamlLoader, IniLoader]`, in definition order.
- Loader instances are represented by their class (`LoaderKind`). The fact that each `get_loader` call creates a new object is not captured.
- The stored collection is a sequence of strings. Python would also store any other truthy value, such as a tuple, set, dict or number. A value that does not support `in` would then make `get_loader` raise `TypeError`. That is not modelled.
- `Loaders.LoaderFactory.constructor`: requires a non-falsy argument, because a Dafny constructor cannot fail. The raising path of the Python constructor is `Create`.
- `Loaders.LoaderFactory.TargetFileExts`: Python stores a collection argument without copying it, and the getter returns that same object. A caller can therefore empty the stored list in place, or add to it, without going through the setter's check. For example, `xs.clear()` after `LoaderFactory(xs)` leaves the factory targeting nothing. The model stores a sequence value, so this aliasing and these in-place changes are not captured. The non-empty invariant `Valid()` holds only for updates made through the setter.
