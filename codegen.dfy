/** Code emission for the PCA9575 component (`to_code` and
    `pca9575_pin_to_code` in esphome/components/pca9575/__init__.py). The
    code generator's output is an ordered list of abstract instructions,
    each a call on one generated variable; `CodeGen` is the buffer the
    emitters append to, one instruction at a time. */
module Pca9575Codegen {
  import opened Pca9575

  /** The C++ classes the generated variables are instances of. */
  datatype Class = ComponentClass | GpioPinClass

  /** The calls the emitters generate. `New` declares the variable;
      `SetFlags` carries the mode the flags expression is derived from. */
  datatype Call =
    | New(cls: Class)
    | SetPinCount(count: int)
    | RegisterComponent
    | RegisterI2CDevice(address: int)
    | SetParent(parent: string)
    | SetPin(number: int)
    | SetInverted(inverted: bool)
    | SetFlags(mode: Mode)

  /** One emitted statement: `call` applied to the variable `target`. */
  datatype Instr = Instr(target: string, call: Call)

  // ------------------------------------------------ emission as functions

  /** Position of a call in the expander's emission order. */
  function ExpanderStep(c: Call): int {
    match c
    case New(ComponentClass) => 0
    case SetPinCount(_) => 1
    case RegisterComponent => 2
    case RegisterI2CDevice(_) => 3
    case _ => -1
  }

  /** Position of a call in a pin's emission order. */
  function PinStep(c: Call): int {
    match c
    case New(GpioPinClass) => 0
    case SetParent(_) => 1
    case SetPin(_) => 2
    case SetInverted(_) => 3
    case SetFlags(_) => 4
    case _ => -1
  }

  /** Reads an expander's settings back from its emitted code. */
  function ReadExpanderCode(s: seq<Instr>): Option<ExpanderConfig> {
    if |s| == 4 && (forall i :: 0 <= i < 4 ==> ExpanderStep(s[i].call) == i && s[i].target == s[0].target)
    then Some(ExpanderConfig(s[0].target, s[1].call.count, s[3].call.address))
    else None
  }

  /** Reads a pin's settings back from its emitted code. */
  function ReadPinCode(s: seq<Instr>): Option<PinConfig> {
    if |s| == 5 && (forall i :: 0 <= i < 5 ==> PinStep(s[i].call) == i && s[i].target == s[0].target)
    then Some(PinConfig(s[0].target, s[1].call.parent, s[2].call.number, s[3].call.inverted, s[4].call.mode))
    else None
  }

  /** `to_code`: declare the component, set its pin count, register it as
      a component and as an I2C device. Every call targets the expander's
      own variable, in that fixed order, and the emitted code reads back
      as the configuration it came from. */
  function ExpanderCode(c: ExpanderConfig): (r: seq<Instr>)
    ensures |r| == 4
    ensures forall i :: 0 <= i < |r| ==> r[i].target == c.id && ExpanderStep(r[i].call) == i
    ensures ReadExpanderCode(r) == Some(c)
  {
    [ Instr(c.id, New(ComponentClass)),
      Instr(c.id, SetPinCount(c.pinCount)),
      Instr(c.id, RegisterComponent),
      Instr(c.id, RegisterI2CDevice(c.address)) ]
  }

  /** `pca9575_pin_to_code`: declare the pin, bind its parent, then set
      number, inversion and flags, in that fixed order. Every call targets
      the pin's own variable and the emitted code reads back as the
      configuration it came from. */
  function PinCode(c: PinConfig): (r: seq<Instr>)
    ensures |r| == 5
    ensures forall i :: 0 <= i < |r| ==> r[i].target == c.id && PinStep(r[i].call) == i
    ensures ReadPinCode(r) == Some(c)
  {
    [ Instr(c.id, New(GpioPinClass)),
      Instr(c.id, SetParent(c.parent)),
      Instr(c.id, SetPin(c.number)),
      Instr(c.id, SetInverted(c.inverted)),
      Instr(c.id, SetFlags(c.mode)) ]
  }

  /** Emission distinguishes configurations: different settings never
      produce the same code. */
  lemma CodeIsInjective(a: ExpanderConfig, b: ExpanderConfig, p: PinConfig, q: PinConfig)
    ensures ExpanderCode(a) == ExpanderCode(b) ==> a == b
    ensures PinCode(p) == PinCode(q) ==> p == q
  {
  }

  // ---------------------------------------------- order of the whole body

  /** Variables declared by `New` somewhere in `s`. */
  function DeclaredVars(s: seq<Instr>): set<string>
    decreases |s|
  {
    if s == [] then {}
    else DeclaredVars(s[..|s| - 1]) + (if s[|s| - 1].call.New? then {s[|s| - 1].target} else {})
  }

  /** Variables declared as PCA9575 components somewhere in `s`. */
  function DeclaredExpanders(s: seq<Instr>): set<string>
    decreases |s|
  {
    if s == [] then {}
    else DeclaredExpanders(s[..|s| - 1]) + (if s[|s| - 1].call == New(ComponentClass) then {s[|s| - 1].target} else {})
  }

  /** An instruction may follow code that has declared `vars`, of which
      `expanders` are components: a call needs its target declared, and a
      parent binding needs its parent declared as a component. */
  predicate Permitted(i: Instr, vars: set<string>, expanders: set<string>) {
    match i.call
    case New(_) => true
    case SetParent(p) => i.target in vars && p in expanders
    case _ => i.target in vars
  }

  /** Every instruction of `s` is permitted after the ones before it. */
  predicate WellOrdered(s: seq<Instr>)
    decreases |s|
  {
    s == [] ||
    (WellOrdered(s[..|s| - 1]) &&
     Permitted(s[|s| - 1], DeclaredVars(s[..|s| - 1]), DeclaredExpanders(s[..|s| - 1])))
  }

  lemma {:induction false} DeclaredExpandersAt(s: seq<Instr>, p: string)
    ensures p in DeclaredExpanders(s) <==> exists j :: 0 <= j < |s| && s[j] == Instr(p, New(ComponentClass))
    decreases |s|
  {
    if s != [] {
      var prefix := s[..|s| - 1];
      DeclaredExpandersAt(prefix, p);
      if p in DeclaredExpanders(prefix) {
        var j :| 0 <= j < |prefix| && prefix[j] == Instr(p, New(ComponentClass));
        assert s[j] == prefix[j];
      }
      if exists j :: 0 <= j < |s| && s[j] == Instr(p, New(ComponentClass)) {
        var j :| 0 <= j < |s| && s[j] == Instr(p, New(ComponentClass));
        if j < |s| - 1 {
          assert prefix[j] == s[j];
        }
      }
    }
  }

  /** In well-ordered code every parent binding comes after the
      declaration of the PCA9575 component it names. */
  lemma {:induction false} ParentDeclaredBefore(s: seq<Instr>, i: int)
    requires WellOrdered(s)
    requires 0 <= i < |s| && s[i].call.SetParent?
    ensures exists j :: 0 <= j < i && s[j] == Instr(s[i].call.parent, New(ComponentClass))
    decreases |s|
  {
    var prefix := s[..|s| - 1];
    if i == |s| - 1 {
      DeclaredExpandersAt(prefix, s[i].call.parent);
      var j :| 0 <= j < |prefix| && prefix[j] == Instr(s[i].call.parent, New(ComponentClass));
      assert s[j] == prefix[j];
    } else {
      assert prefix[i] == s[i];
      ParentDeclaredBefore(prefix, i);
      var j :| 0 <= j < i && prefix[j] == Instr(s[i].call.parent, New(ComponentClass));
      assert s[j] == prefix[j];
    }
  }

  // ------------------------------------------------- the emission buffer

  /** The code generator's output buffer with the variables declared so
      far; `expanders` are those `get_variable` resolves to a PCA9575
      component. */
  class CodeGen {
    var body: seq<Instr>
    var vars: set<string>
    var expanders: set<string>

    ghost predicate Valid()
      reads this
    {
      WellOrdered(body) && vars == DeclaredVars(body) && expanders == DeclaredExpanders(body)
    }

    constructor ()
      ensures Valid() && body == [] && vars == {} && expanders == {}
    {
      body, vars, expanders := [], {}, {};
    }

    /** `cg.add`: append one instruction. */
    method Add(i: Instr)
      requires Valid() && Permitted(i, vars, expanders)
      modifies this
      ensures Valid()
      ensures body == old(body) + [i]
      ensures vars == old(vars) + (if i.call.New? then {i.target} else {})
      ensures expanders == old(expanders) + (if i.call == New(ComponentClass) then {i.target} else {})
    {
      var prefix := body;
      body := body + [i];
      assert body[..|body| - 1] == prefix;
      if i.call.New? {
        vars := vars + {i.target};
      }
      if i.call == New(ComponentClass) {
        expanders := expanders + {i.target};
      }
    }

    /** `to_code`: the expander's instructions, appended in order. */
    method ExpanderToCode(c: ExpanderConfig)
      requires Valid()
      modifies this
      ensures Valid()
      ensures body == old(body) + ExpanderCode(c)
      ensures vars == old(vars) + {c.id}
      ensures expanders == old(expanders) + {c.id}
    {
      Add(Instr(c.id, New(ComponentClass)));
      Add(Instr(c.id, SetPinCount(c.pinCount)));
      Add(Instr(c.id, RegisterComponent));
      Add(Instr(c.id, RegisterI2CDevice(c.address)));
    }

    /** `pca9575_pin_to_code` up to its await: `new_Pvariable` declares
        the pin's variable, whether or not its parent exists yet. */
    method PinDeclare(c: PinConfig) returns (v: string)
      requires Valid()
      modifies this
      ensures Valid()
      ensures body == old(body) + PinCode(c)[..1]
      ensures vars == old(vars) + {c.id}
      ensures expanders == old(expanders)
      ensures v == c.id
    {
      v := c.id;
      Add(Instr(v, New(GpioPinClass)));
    }

    /** `pca9575_pin_to_code` after `get_variable` has resolved the parent:
        bind it, then set number, inversion and flags. Other code may have
        been emitted between the declaration and this point. */
    method PinBind(c: PinConfig)
      requires Valid() && c.id in vars && c.parent in expanders
      modifies this
      ensures Valid()
      ensures body == old(body) + PinCode(c)[1..]
      ensures vars == old(vars) && expanders == old(expanders)
    {
      Add(Instr(c.id, SetParent(c.parent)));
      Add(Instr(c.id, SetPin(c.number)));
      Add(Instr(c.id, SetInverted(c.inverted)));
      Add(Instr(c.id, SetFlags(c.mode)));
    }
  }
}
