/** Bounded until properties, and the rewriting that turns one property into its lower- and
    upper-bound version (ModelModify). */
module Csl {
  import opened Outcomes

  // State formulas over labels.  An expression over the variables of a state is one more label.
  datatype StateFormula =
    | Literal(value: bool)
    | Atom(name: string)
    | Not(arg: StateFormula)
    | And(left: StateFormula, right: StateFormula)
    | Or(left: StateFormula, right: StateFormula)

  datatype TimeBound = TimeBound(strict: bool, at: real)

  datatype PathFormula = Until(left: StateFormula, right: StateFormula,
                               lower: Option<TimeBound>, upper: Option<TimeBound>)

  datatype Property = Property(name: string, path: PathFormula)

  const ABSORBING := "Absorbing"

  predicate Sat(f: StateFormula, labels: set<string>) {
    match f
    case Literal(b) => b
    case Atom(a) => a in labels
    case Not(g) => !Sat(g, labels)
    case And(g, h) => Sat(g, labels) && Sat(h, labels)
    case Or(g, h) => Sat(g, labels) || Sat(h, labels)
  }

  /** ModelModify::modifyProperty.  A missing upper bound aborts; a missing lower bound becomes
      zero; both rebuilt bounds are marked strict, whatever they were. */
  function ModifyProperty(prop: Property, isMin: bool): (r: Result<Property>)
    ensures r.Failure? <==> prop.path.upper.None?
    ensures r.Success? ==>
              && r.value.name == prop.name + (if isMin then "_min" else "_max")
              && r.value.path.left == prop.path.left
              && r.value.path.lower
                  == Some(TimeBound(true, if prop.path.lower.Some? then prop.path.lower.value.at else 0.0))
              && r.value.path.upper == Some(TimeBound(true, prop.path.upper.value.at))
  {
    var path := prop.path;
    if path.upper.None? then
      Failure("Needs upper bound!")
    else
      var lower := if path.lower.Some? then path.lower.value.at else 0.0;
      var goal := if isMin then And(Not(Atom(ABSORBING)), path.right) else Or(Atom(ABSORBING), path.right);
      var suffix := if isMin then "_min" else "_max";
      Success(Property(prop.name + suffix,
                       Until(path.left, goal, Some(TimeBound(true, lower)),
                           Some(TimeBound(true, path.upper.value.at)))))
  }

  /** The rewriting changes the goal at "Absorbing" and nowhere else, and only there do the two
      versions disagree: the lower one calls it a failure, the upper one a success. */
  lemma ModifiedGoal(prop: Property, isMin: bool, labels: set<string>)
    requires ModifyProperty(prop, isMin).Success?
    ensures var path := ModifyProperty(prop, isMin).value.path;
            && (Sat(path.left, labels) <==> Sat(prop.path.left, labels))
            && (ABSORBING !in labels ==> (Sat(path.right, labels) <==> Sat(prop.path.right, labels)))
            && (ABSORBING in labels ==> (Sat(path.right, labels) <==> !isMin))
  {
    var goal := ModifyProperty(prop, isMin).value.path.right;
    if isMin {
      assert Sat(goal.left, labels) <==> !Sat(Atom(ABSORBING), labels);
    } else {
      assert Sat(goal.left, labels) <==> Sat(Atom(ABSORBING), labels);
    }
  }
}
