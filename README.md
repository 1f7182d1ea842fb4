# Lumber logger hierarchy, modelled in Dafny

Lumber gives every class of a Ruby application its own Log4r logger. Each
logger's name records where the class sits below an explicitly registered
root. An application registers roots with
`Lumber.setup_logger_hierarchy(class_name, namespace)`. From then on, an
inheritance hook on `Object` runs each time a subclass is declared:

- If the subclass's own name is registered, the subclass gets a logger named
  by that namespace.
- Otherwise the hook walks up the superclass chain. It stops at the first
  ancestor whose logger name starts with any registered namespace. The
  subclass then gets `<ancestor logger>::<subclass name>`.
- If no ancestor qualifies, the subclass gets no logger.

This project models that propagation logic and proves what it assigns.

- `propagation.dfy` (module `Propagation`) holds the pure specification. It
  defines the superclass chain from a class to the root (`Ancestors`), the
  prefix test against registered namespaces (`Inside`, `Qualifies`), the
  first qualifying ancestor (`FirstQualifying`, `NearestOwner`) and the
  logger the hook assigns (`HookOutcome`). The lemmas there state the walk's
  properties.
- `lumber.dfy` (module `Lumber`) holds the process state in a class,
  `Runtime`. Its fields are the registry (`@@registered_loggers`), whether
  the registry exists yet, whether the hook is installed, the host's classes
  with their superclasses, names and constant table, the names of Object's
  constants that are not classes, and each class's logger slot. A ghost rank per class shows the superclass relation is acyclic, and
  that is why the hook's `while` loop terminates. Its methods are `Init`,
  `SetupLoggerHierarchy`, `RegisterInheritanceHandler`, the hook
  `InheritedWithLumber`, and `DeclareClass`. `DeclareClass` is the host's
  class declaration, which runs the hook once it is installed. Each method's
  contract states the full new state in terms of the old one. The hook's
  result is stated through `HookOutcome`.

A Log4r logger is represented by its full name: `Log4r::Logger.new(name)` is
the string `name`, and its `fullname` is that same string.

In places the code differs from what its comments suggest, for example the
`<class_name>` suffix at lib/lumber/lumber.rb:56. There the model follows the
code:

- The ancestor test is a plain string prefix, `fullname.index(v) == 0`. It
  is not a match on whole `::` segments. A registered `"app"` therefore
  admits an ancestor logger named `"apple"`.
- The derived suffix is the subclass's full name (`subclass.name`, for
  example `Admin::User`), not its unqualified name.
- The walk accepts a logger prefixed by any registered namespace, not only
  the namespace of the ancestor's own root. When several namespaces match,
  the result is the same, because only the fact that one matches is used.
- Registration is retroactive only for the class that carries the registered
  name. Its already-declared subclasses keep whatever logger they had, as
  `Lumber.RetroactiveRegistration` shows.
- Registering a name again overwrites the registry entry. If that class
  exists, registering it again also replaces its logger.
- Calling `setup_logger_hierarchy` before `init` reads a class variable that
  was never assigned, and Ruby raises a `NameError`. The model returns
  `ok == false` and changes nothing.
- After `init`, `setup_logger_hierarchy` writes the registry entry first
  (line 62) and then calls `Object.const_defined?` (line 63). That call raises
  a `NameError` for a name that is not a constant name, such as `"foo"`,
  `""` or, under Ruby 1.8 and 1.9, a qualified name like the comment's own
  `"ActiveRecord::Base"` (line 53). The model returns `ok == false` with the
  registry entry already written and no logger changed, as
  `Lumber.QualifiedRegistration` shows.
- When the name is a constant bound to something other than a class, such as
  the module `Math` or the string `RUBY_VERSION`, line 63 succeeds. Line 64 or
  65 then raises a `NoMethodError`, because that object lacks `class_eval` or
  `class_inheritable_accessor`. The model keeps the names of such constants
  in `otherConstants` and returns `ok == false` with the registry entry
  already written and no logger changed, as `Lumber.ModuleRegistration`
  shows.

A class counts as registered (`Registered`) when its name is a key of the
registry. An anonymous class's nil name matches no registry key, because
registered class names are strings. The suffix a derived logger gets is the
class's name as Ruby interpolates it (`NameText`): an anonymous class
interpolates its nil name as an empty string.

## Model

| member | source | states |
|---|---|---|
| `Propagation.Inside` | lib/lumber/lumber.rb:99 | definition: some registered value is a plain string prefix of the name, as `index(v) == 0`; contract: a registered namespace is inside itself |
| `Propagation.Qualifies` | lib/lumber/lumber.rb:98-100 | definition: the class has a logger and its full name is `Inside` the registry; contract: any class whose logger is exactly a registered namespace qualifies |
| `Propagation.Ancestors` | lib/lumber/lumber.rb:96-105 | the walked chain starts at the given class; each element's superclass is the next element; it ends at a class with no superclass; it is empty exactly when the walk starts at nil |
| `Propagation.FirstQualifying` | lib/lumber/lumber.rb:97-103 | the position where the loop breaks: every earlier class lacks a logger or has one that no registered namespace prefixes, and the class at that position (if any) has one that some namespace prefixes |
| `Propagation.NearestOwner` | lib/lumber/lumber.rb:96-106 | the walk, one superclass at a time: the chosen ancestor is on the chain from the start and qualifies; with no choice, no class on that chain qualifies |
| `Propagation.NearestIsFirstQualifying` | lib/lumber/lumber.rb:96-105 | the walk's choice is the class at the chain's first qualifying position (`FirstQualifying`), and None exactly when that position is past the end |
| `Propagation.HookOutcome` | lib/lumber/lumber.rb:84-107 | every logger name the hook assigns is itself prefixed by a registered namespace, so subclasses of the new class can derive from it |
| `Propagation.AncestorsRankBelow` | lib/lumber/lumber.rb:105 | each step up the chain lowers the rank, so the chain is finite and ranks below its start |
| `Propagation.WalkExcludesSubclass` | lib/lumber/lumber.rb:96 | the walk starts at the immediate superclass and never visits the new subclass itself |
| `Propagation.NearestStopsAtQualifying` | lib/lumber/lumber.rb:98-103 | an ancestor that qualifies ends the walk at that ancestor |
| `Propagation.NearestSkipsUnqualified` | lib/lumber/lumber.rb:98-105 | an ancestor without a logger, or whose logger no registered namespace prefixes, is skipped: the result is the walk from its superclass |
| `Propagation.NearestIsFirst` | lib/lumber/lumber.rb:97-103 | the chosen ancestor is the first qualifying one: if position i qualifies and none before it does, the walk picks position i |
| `Propagation.DirectRegistration` | lib/lumber/lumber.rb:86-91 | a subclass whose own name is registered gets exactly that namespace, whatever its ancestors hold |
| `Propagation.ChildOfQualifyingParent` | lib/lumber/lumber.rb:96-102 | an unregistered subclass whose superclass qualifies gets `<superclass logger>::<subclass name>` |
| `Propagation.NearestAncestorAtDepth` | lib/lumber/lumber.rb:96-105 | an unregistered subclass whose first qualifying ancestor is at any position of the chain gets that ancestor's logger plus `::` and the subclass name |
| `Propagation.NoQualifyingAncestor` | lib/lumber/lumber.rb:97-107 | an unregistered subclass with no qualifying ancestor gets no logger |
| `Propagation.AncestorsUnchangedByDeclaration` | lib/lumber/lumber.rb:105 | declaring a fresh class leaves the superclass relation acyclic and does not change the chain walked from any class that already existed |
| `Lumber.Runtime.Init` | lib/lumber/lumber.rb:42-43 | the registry becomes empty and exists, the hook is installed, and no class or logger changes |
| `Lumber.Runtime.SetupLoggerHierarchy` | lib/lumber/lumber.rb:61-69 | before `init` it fails and changes nothing; after `init` the registry maps the class name to the namespace and every other entry is unchanged; it succeeds exactly when the name is also a constant name not bound to a module or other non-class object, and only then does the logger slot of the class bound to that name (if one exists) become the namespace, with no other slot changing |
| `Lumber.Runtime.RegisterInheritanceHandler` | lib/lumber/lumber.rb:75-78 | afterwards the hook is installed and nothing else changes, so a second call changes nothing |
| `Lumber.Runtime.DeclareClass` | lib/lumber/lumber.rb:110 | declaring a subclass adds it below its superclass and binds its name in Object's constant table only when that name is a constant name; when the hook is installed, the new class's slot becomes the hook's outcome and no other slot changes; otherwise no slot changes |
| `Lumber.Runtime.InheritedWithLumber` | lib/lumber/lumber.rb:81-108 | the hook leaves the registry and every other class's logger unchanged, and sets the subclass's slot to `HookOutcome` (direct registration, else nearest qualifying ancestor plus `::` and the subclass name, else nothing) |
| `Lumber.RegisteredName` | lib/lumber/lumber.rb:61-63 | after `init`, registering `A` before any class `A` exists adds the registry entry and gives no class a logger |
| `Lumber.RegisteredRoot` | lib/lumber/lumber.rb:86-91 | after `init` and registering `A` as `root`, declaring `A` gives it logger `root` |
| `Lumber.RootWithSubclass` | lib/lumber/lumber.rb:96-102 | then declaring `B` below `A` gives `B` logger `root::B` |
| `Lumber.ThreeLevelChain` | lib/lumber/lumber.rb:86-103 | for `A` registered as `root`, `B < A` and `C < B`, the loggers are `root`, `root::B` and `root::B::C` |
| `Lumber.UnregisteredRoot` | lib/lumber/lumber.rb:97-107 | after `init` with nothing registered, declaring `A` gives it no logger |
| `Lumber.UnregisteredPair` | lib/lumber/lumber.rb:97-107 | then declaring `B` below `A` gives `B` no logger either |
| `Lumber.RetroactiveRegistration` | lib/lumber/lumber.rb:61-69 | registering `A` after `A` and `B < A` exist gives `A` logger `root` and leaves `B` without one |
| `Lumber.QualifiedRegistration` | lib/lumber/lumber.rb:61-63 | registering `"ActiveRecord::Base"` after `init` fails, yet its registry entry `rails::models` has been written |
| `Lumber.ModuleRegistration` | lib/lumber/lumber.rb:61-65 | registering the module constant `Math` after `init` fails, yet its registry entry `math` has been written and no class has a logger |

## Left out

- Log4r configuration in `init` is not modelled (lib/lumber/lumber.rb:22-34). This covers the option defaults from `RAILS_ROOT`/`RAILS_ENV`, the `raise` when `:root` or `:env` is missing, the YAML configurator and the config file. It is file I/O and a foreign library. `Init` models only lines 42-43.
- `Socket.gethostname` (lib/lumber/lumber.rb:32) is not modelled. It is a system call.
- Replacing the `RAILS_DEFAULT_LOGGER` constant (lib/lumber/lumber.rb:37-40) is not modelled. It is Rails plumbing and does not affect propagation.
- Ruby's metaprogramming (`alias_method_chain`, `class_eval`, `class << self`) is not modelled. The hook is a method, and installation is a boolean flag. The previous `inherited` hook, which the new one calls first (line 82), is treated as doing nothing. A class that overrides `inherited` without calling `super` is not modelled.
- ActiveSupport's `class_inheritable_accessor` is not modelled. In that library a subclass starts with a copy of its parent's value. Here each class has a plain optional slot, and a newly declared class starts without a logger.
- Log4r's own behaviour is not modelled: logger levels, outputters, formatting, and its logger repository. A logger is just its full name.
- Naming an anonymous class after it is declared is not modelled. Under Ruby 1.8, an anonymous class's name is `""` rather than nil, and that is not modelled either.
- Constant names follow Ruby 1.8 and 1.9 and use ASCII letters only: `Object.const_defined?` accepts a capital letter followed by letters, digits and underscores, and rejects a `::`-qualified name. Later Rubies accept qualified names there, and that is not modelled. Non-ASCII constant names are not modelled either.
- Concurrency is not modelled. The code has no locks or threads.
- `Lumber.Runtime.RegisterInheritanceHandler`: requires that the registry already exists. Its only caller, `init`, runs it right after line 42 creates the registry. A hook installed before that point, which would raise a `NameError` on every declaration, is not modelled.
- `Lumber.Runtime.DeclareClass`: requires a fresh class, an existing superclass and an unused constant name. A Ruby `class` statement that names an existing class reopens that class instead of declaring a new one, and one that names a constant bound to a non-class raises a `TypeError`.
