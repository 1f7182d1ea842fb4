/** Lumber's process-wide state and its operations: the registry of class
    names bound to logger namespaces, the per-class logger slot, the
    install-once inheritance hook, and the class declarations of the host
    runtime that trigger that hook. */
module Lumber {
  import opened Propagation

  /** The class every other class descends from. */
  const OBJECT: ClassId := 0

  predicate WordChar(ch: char)
  {
    'A' <= ch <= 'Z' || 'a' <= ch <= 'z' || '0' <= ch <= '9' || ch == '_'
  }

  /** A name `Object.const_defined?` accepts under Ruby 1.8 and 1.9: a capital
      letter followed by word characters. Anything else, including a
      `::`-qualified name and the empty string, makes it raise a NameError. */
  predicate ConstantName(s: string)
  {
    |s| > 0 && 'A' <= s[0] <= 'Z' && forall i :: 1 <= i < |s| ==> WordChar(s[i])
  }

  /** The parts of a Ruby process that Lumber reads and writes. */
  class Runtime {
    /** `@@registered_loggers`: class name to logger namespace. */
    var registry: map<string, string>
    /** Whether `@@registered_loggers` has been assigned at all. */
    var initialized: bool
    /** Whether the inheritance hook has been installed on Object. */
    var installed: bool

    /** The host's classes: identities, superclasses, names (a class without
        a name is anonymous) and the constant table naming them. */
    var classes: set<ClassId>
    var superclass: map<ClassId, ClassId>
    var names: map<ClassId, string>
    var constants: map<string, ClassId>
    /** Names of Object's constants bound to something other than a class,
        such as the module `Math` or the string `RUBY_VERSION`. */
    var otherConstants: set<string>

    /** Each class's logger slot, holding its logger's full name; a class
        outside the map has no logger. */
    var logger: map<ClassId, string>

    /** Acyclicity witness for `superclass`. */
    ghost var rank: map<ClassId, nat>

    ghost predicate Valid()
      reads this
    {
      (!initialized ==> registry == map[]) &&
      (installed ==> initialized) &&
      OBJECT in classes &&
      rank.Keys == classes &&
      superclass.Keys <= classes &&
      Ranked(superclass, rank) &&
      names.Keys <= classes &&
      constants.Values <= classes &&
      constants.Keys !! otherConstants &&
      logger.Keys <= classes
    }

    /** A process in which Object is the only class, `otherConstants` name
        Object's other constants, and Lumber has not run. */
    constructor (otherConstants: set<string>)
      requires "Object" !in otherConstants
      ensures Valid()
      ensures registry == map[] && !initialized && !installed
      ensures classes == {OBJECT} && superclass == map[] && logger == map[]
      ensures names == map[OBJECT := "Object"] && constants == map["Object" := OBJECT]
      ensures this.otherConstants == otherConstants
    {
      this.otherConstants := otherConstants;
      registry := map[];
      initialized := false;
      installed := false;
      classes := {OBJECT};
      superclass := map[];
      names := map[OBJECT := "Object"];
      constants := map["Object" := OBJECT];
      logger := map[];
      rank := map[OBJECT := 0];
    }

    /** The registry reset and hook installation that end `Lumber.init`. */
    method Init()
      requires Valid()
      modifies this`registry, this`initialized, this`installed
      ensures Valid()
      ensures registry == map[] && initialized && installed
    {
      registry := map[];
      initialized := true;
      RegisterInheritanceHandler();
    }

    /** Binds `className` to `fullname` in the registry and, when a class of
        that name already exists, gives it a logger named `fullname` at once.
        `ok` is false when Ruby raises: before `Init` the registry does not
        exist and nothing changes (NameError). After it, the registry entry is
        written first; then the constant lookup rejects a `className` that is
        not a constant name (NameError), or the constant names a module or
        another object that is not a class, which lacks `class_eval` or
        `class_inheritable_accessor` (NoMethodError). Either way no logger
        changes. */
    method SetupLoggerHierarchy(className: string, fullname: string) returns (ok: bool)
      requires Valid()
      modifies this`registry, this`logger
      ensures Valid()
      ensures ok == (initialized && ConstantName(className) && className !in otherConstants)
      ensures !initialized ==> registry == old(registry)
      ensures initialized ==> registry == old(registry)[className := fullname]
      ensures logger == if ok && className in constants then old(logger)[constants[className] := fullname] else old(logger)
    {
      if !initialized {
        return false;
      }
      registry := registry[className := fullname];
      if !ConstantName(className) || className in otherConstants {
        return false;
      }
      if className in constants {
        logger := logger[constants[className] := fullname];
      }
      return true;
    }

    /** Installs the hook unless it is already installed; a second call
        changes nothing. */
    method RegisterInheritanceHandler()
      requires Valid() && initialized
      modifies this`installed
      ensures Valid()
      ensures installed
    {
      if installed {
        return;
      }
      installed := true;
    }

    /** The host declares class `c`, named `name` or anonymous, as a subclass
        of `parent`. A name that is a constant name is bound in Object's
        constant table; a qualified name such as `Admin::User` belongs to a
        class nested in a namespace and is not. Once the hook is installed it runs for every such
        declaration; otherwise the host's own hook does nothing. */
    method DeclareClass(c: ClassId, name: Option<string>, parent: ClassId)
      requires Valid()
      requires c !in classes && parent in classes
      requires name.Some? ==> name.value !in constants && name.value !in otherConstants
      modifies this`classes, this`superclass, this`names, this`constants, this`rank, this`logger
      ensures Valid()
      ensures classes == old(classes) + {c}
      ensures superclass == old(superclass)[c := parent]
      ensures names == if name.Some? then old(names)[c := name.value] else old(names)
      ensures constants == if name.Some? && ConstantName(name.value) then old(constants)[name.value := c] else old(constants)
      ensures !installed ==> logger == old(logger)
      ensures installed ==> logger == Assign(old(logger), c, HookOutcome(registry, superclass, rank, names, old(logger), c))
    {
      AncestorsUnchangedByDeclaration(superclass, rank, c, parent, None);
      classes := classes + {c};
      superclass := superclass[c := parent];
      rank := rank[c := rank[parent] + 1];
      if name.Some? {
        names := names[c := name.value];
        if ConstantName(name.value) {
          constants := constants[name.value := c];
        }
      }
      if installed {
        InheritedWithLumber(c);
      }
    }

    /** The inheritance hook. A class whose own name is registered gets that
        namespace; otherwise the superclass chain is walked from the immediate
        superclass, and the first ancestor whose logger is inside a registered
        namespace gives the class `<ancestor logger>::<class name>`. With no
        such ancestor the class keeps no logger. Only the class's own slot
        changes. */
    method InheritedWithLumber(sub: ClassId)
      requires Valid() && sub in classes
      modifies this`logger
      ensures Valid()
      ensures logger == Assign(old(logger), sub, HookOutcome(registry, superclass, rank, names, old(logger), sub))
    {
      if sub in names && names[sub] in registry {
        logger := logger[sub := registry[names[sub]]];
      } else {
        var parent := ParentOf(superclass, sub);
        ghost var chain := Ancestors(superclass, rank, parent);
        ghost var k := 0;
        while parent.Some?
          invariant k <= |chain|
          invariant parent == if k < |chain| then Some(chain[k]) else None
          invariant forall j :: 0 <= j < k ==> !Qualifies(logger, registry, chain[j])
          invariant logger == old(logger)
          decreases |chain| - k
        {
          var p := parent.value;
          if p in logger && Inside(registry, logger[p]) {
            NearestIsFirst(superclass, rank, logger, registry, ParentOf(superclass, sub), k);
            logger := logger[sub := logger[p] + "::" + NameText(names, sub)];
            break;
          }
          parent := ParentOf(superclass, p);
          k := k + 1;
        }
      }
    }
  }

  /** After `Lumber.init`, class name A is registered as "root" before any
      class of that name exists: the registry gains the entry and no class
      gets a logger. */
  method RegisteredName() returns (rt: Runtime)
    ensures fresh(rt) && rt.Valid() && rt.installed
    ensures rt.registry == map["A" := "root"]
    ensures rt.classes == {OBJECT} && rt.superclass == map[]
    ensures rt.names == map[OBJECT := "Object"]
    ensures rt.constants == map["Object" := OBJECT] && rt.otherConstants == {}
    ensures rt.logger == map[]
  {
    rt := new Runtime({});
    rt.Init();
    var ok := rt.SetupLoggerHierarchy("A", "root");
  }

  /** After `Lumber.init`, class name A is registered as "root" and class A
      (identity 1) is declared below Object. */
  method RegisteredRoot() returns (rt: Runtime)
    ensures fresh(rt) && rt.Valid() && rt.installed
    ensures rt.registry == map["A" := "root"]
    ensures rt.classes == {OBJECT, 1} && rt.superclass == map[1 := OBJECT]
    ensures rt.names == map[OBJECT := "Object", 1 := "A"]
    ensures rt.constants == map["Object" := OBJECT, "A" := 1] && rt.otherConstants == {}
    ensures rt.logger == map[1 := "root"]
  {
    rt := RegisteredName();
    rt.DeclareClass(1, Some("A"), OBJECT);
    DirectRegistration(rt.registry, rt.superclass, rt.rank, rt.names, map[], 1);
  }

  /** Class B (identity 2) declared below A: B's name is not registered, so the
      hook derives B's logger from A's. */
  method RootWithSubclass() returns (rt: Runtime)
    ensures fresh(rt) && rt.Valid() && rt.installed
    ensures rt.registry == map["A" := "root"]
    ensures rt.classes == {OBJECT, 1, 2} && rt.superclass == map[1 := OBJECT, 2 := 1]
    ensures rt.names == map[OBJECT := "Object", 1 := "A", 2 := "B"]
    ensures rt.constants == map["Object" := OBJECT, "A" := 1, "B" := 2] && rt.otherConstants == {}
    ensures rt.logger == map[1 := "root", 2 := "root::B"]
  {
    rt := RegisteredRoot();
    assert rt.registry["A"] == "root";
    rt.DeclareClass(2, Some("B"), 1);
    assert "root" <= "root";
    ChildOfQualifyingParent(rt.registry, rt.superclass, rt.rank, rt.names, map[1 := "root"], 2);
    assert "root" + "::" + "B" == "root::B";
  }

  /** Three classes declared after `Lumber.init`: A registered as "root", B a
      subclass of A, C a subclass of B. */
  method ThreeLevelChain() returns (a: Option<string>, b: Option<string>, c: Option<string>)
    ensures a == Some("root") && b == Some("root::B") && c == Some("root::B::C")
  {
    var rt := RootWithSubclass();
    assert rt.registry["A"] == "root";
    rt.DeclareClass(3, Some("C"), 2);
    assert "root" <= "root::B";
    ChildOfQualifyingParent(rt.registry, rt.superclass, rt.rank, rt.names, map[1 := "root", 2 := "root::B"], 3);
    assert "root::B" + "::" + "C" == "root::B::C";
    a := SlotOf(rt.logger, 1);
    b := SlotOf(rt.logger, 2);
    c := SlotOf(rt.logger, 3);
  }

  /** After `Lumber.init` and before any registration, class A (identity 1)
      is declared below Object: nothing is registered, so A gets no logger. */
  method UnregisteredRoot() returns (rt: Runtime)
    ensures fresh(rt) && rt.Valid() && rt.installed
    ensures rt.registry == map[]
    ensures rt.classes == {OBJECT, 1} && rt.superclass == map[1 := OBJECT]
    ensures rt.constants == map["Object" := OBJECT, "A" := 1] && rt.otherConstants == {}
    ensures rt.logger == map[]
  {
    rt := new Runtime({});
    rt.Init();
    rt.DeclareClass(1, Some("A"), OBJECT);
    NoQualifyingAncestor(rt.registry, rt.superclass, rt.rank, rt.names, map[], 1);
  }

  /** Then B (identity 2) is declared below A: no class qualifies, so B gets
      no logger either. */
  method UnregisteredPair() returns (rt: Runtime)
    ensures fresh(rt) && rt.Valid() && rt.initialized
    ensures rt.registry == map[]
    ensures rt.classes == {OBJECT, 1, 2}
    ensures rt.constants == map["Object" := OBJECT, "A" := 1, "B" := 2] && rt.otherConstants == {}
    ensures rt.logger == map[]
  {
    rt := UnregisteredRoot();
    rt.DeclareClass(2, Some("B"), 1);
    NoQualifyingAncestor(rt.registry, rt.superclass, rt.rank, rt.names, map[], 2);
  }

  /** Registration is retroactive only for the named class itself: A and its
      subclass B are declared while nothing is registered, so neither gets a
      logger; registering A afterwards gives A its logger but leaves B without
      one. */
  method RetroactiveRegistration() returns (a: Option<string>, b: Option<string>)
    ensures a == Some("root") && b == None
  {
    var rt := UnregisteredPair();
    assert ConstantName("A") && rt.constants["A"] == 1;
    var ok := rt.SetupLoggerHierarchy("A", "root");
    a := SlotOf(rt.logger, 1);
    b := SlotOf(rt.logger, 2);
  }

  /** Registering a qualified class name, as in
      `setup_logger_hierarchy("ActiveRecord::Base", "rails::models")`: the
      registry entry is written, then the constant lookup raises. */
  method QualifiedRegistration() returns (ok: bool, entry: Option<string>)
    ensures !ok && entry == Some("rails::models")
  {
    var rt := new Runtime({});
    rt.Init();
    assert !ConstantName("ActiveRecord::Base") by {
      assert "ActiveRecord::Base"[12] == ':';
    }
    ok := rt.SetupLoggerHierarchy("ActiveRecord::Base", "rails::models");
    entry := if "ActiveRecord::Base" in rt.registry then Some(rt.registry["ActiveRecord::Base"]) else None;
  }

  /** Registering a constant that names a module, as in
      `setup_logger_hierarchy("Math", "math")`: `Math` is a constant, so the
      lookup succeeds, but a module has no `class_inheritable_accessor` and
      Ruby raises after the registry entry is written; no class gets a
      logger. */
  method ModuleRegistration() returns (ok: bool, entry: Option<string>, loggers: map<ClassId, string>)
    ensures !ok && entry == Some("math") && loggers == map[]
  {
    var rt := new Runtime({"Math"});
    rt.Init();
    ok := rt.SetupLoggerHierarchy("Math", "math");
    entry := if "Math" in rt.registry then Some(rt.registry["Math"]) else None;
    loggers := rt.logger;
  }
}
