/// Issuance-cost allocation of the German calculator and the French method
/// (the two files carry the same routine): each of the four cost percentages
/// is applied to the commercial value, and the amount is charged to the
/// emitter, the bondholder, or in full to each when the assignment is `Both`.
module Costs {
  import opened Enums

  /// The four cost percentages of a bond record and who bears each.
  datatype IssuanceCosts = IssuanceCosts(
    structuration: real, structurationApplyTo: Actor,
    colocation: real, colocationApplyTo: Actor,
    flotation: real, flotationApplyTo: Actor,
    cavali: real, cavaliApplyTo: Actor)

  predicate ChargesEmitter(a: Actor) { a == Emitter || a == Both }

  predicate ChargesBondholder(a: Actor) { a == Bondholder || a == Both }

  /// Amount of a cost given as a percentage of the commercial value.
  function CostAmount(comercialValue: real, pct: real): real
  {
    comercialValue * pct / 100.0
  }

  function ChargedIf(charged: bool, amount: real): real
  {
    if charged then amount else 0.0
  }

  /// Total the emitter bears: the amounts whose assignment charges the emitter.
  function EmitterShare(c: IssuanceCosts, comercialValue: real): real
  {
    ChargedIf(ChargesEmitter(c.structurationApplyTo), CostAmount(comercialValue, c.structuration))
    + ChargedIf(ChargesEmitter(c.colocationApplyTo), CostAmount(comercialValue, c.colocation))
    + ChargedIf(ChargesEmitter(c.flotationApplyTo), CostAmount(comercialValue, c.flotation))
    + ChargedIf(ChargesEmitter(c.cavaliApplyTo), CostAmount(comercialValue, c.cavali))
  }

  /// Total the bondholder bears: the amounts whose assignment charges the bondholder.
  function BondholderShare(c: IssuanceCosts, comercialValue: real): real
  {
    ChargedIf(ChargesBondholder(c.structurationApplyTo), CostAmount(comercialValue, c.structuration))
    + ChargedIf(ChargesBondholder(c.colocationApplyTo), CostAmount(comercialValue, c.colocation))
    + ChargedIf(ChargesBondholder(c.flotationApplyTo), CostAmount(comercialValue, c.flotation))
    + ChargedIf(ChargesBondholder(c.cavaliApplyTo), CostAmount(comercialValue, c.cavali))
  }

  /// The sum of the four cost amounts.
  function TotalCost(c: IssuanceCosts, comercialValue: real): real
  {
    CostAmount(comercialValue, c.structuration) + CostAmount(comercialValue, c.colocation)
    + CostAmount(comercialValue, c.flotation) + CostAmount(comercialValue, c.cavali)
  }

  /// The sum of the amounts assigned to `Both`, which are charged twice.
  function SharedCost(c: IssuanceCosts, comercialValue: real): real
  {
    ChargedIf(c.structurationApplyTo == Both, CostAmount(comercialValue, c.structuration))
    + ChargedIf(c.colocationApplyTo == Both, CostAmount(comercialValue, c.colocation))
    + ChargedIf(c.flotationApplyTo == Both, CostAmount(comercialValue, c.flotation))
    + ChargedIf(c.cavaliApplyTo == Both, CostAmount(comercialValue, c.cavali))
  }

  /// Accumulates the two cost totals one assignment at a time. Every amount
  /// is charged at least once, and an amount assigned to `Both` is charged in
  /// full to each side, so the two totals together exceed the sum of the
  /// costs by exactly the shared amounts.
  method CalculateInitialCosts(c: IssuanceCosts, comercialValue: real)
    returns (emitterCosts: real, bondholderCosts: real)
    ensures emitterCosts == EmitterShare(c, comercialValue)
    ensures bondholderCosts == BondholderShare(c, comercialValue)
    ensures emitterCosts + bondholderCosts
         == TotalCost(c, comercialValue) + SharedCost(c, comercialValue)
  {
    emitterCosts := 0.0;
    bondholderCosts := 0.0;
    var structurationCost := CostAmount(comercialValue, c.structuration);
    var colocationCost := CostAmount(comercialValue, c.colocation);
    var flotationCost := CostAmount(comercialValue, c.flotation);
    var cavaliCost := CostAmount(comercialValue, c.cavali);
    ghost var shared := 0.0;

    if c.structurationApplyTo == Emitter || c.structurationApplyTo == Both {
      emitterCosts := emitterCosts + structurationCost;
    }
    if c.structurationApplyTo == Bondholder || c.structurationApplyTo == Both {
      bondholderCosts := bondholderCosts + structurationCost;
    }
    shared := shared + ChargedIf(c.structurationApplyTo == Both, structurationCost);
    assert emitterCosts + bondholderCosts == structurationCost + shared;

    if c.colocationApplyTo == Emitter || c.colocationApplyTo == Both {
      emitterCosts := emitterCosts + colocationCost;
    }
    if c.colocationApplyTo == Bondholder || c.colocationApplyTo == Both {
      bondholderCosts := bondholderCosts + colocationCost;
    }
    shared := shared + ChargedIf(c.colocationApplyTo == Both, colocationCost);
    assert emitterCosts + bondholderCosts == structurationCost + colocationCost + shared;

    if c.flotationApplyTo == Emitter || c.flotationApplyTo == Both {
      emitterCosts := emitterCosts + flotationCost;
    }
    if c.flotationApplyTo == Bondholder || c.flotationApplyTo == Both {
      bondholderCosts := bondholderCosts + flotationCost;
    }
    shared := shared + ChargedIf(c.flotationApplyTo == Both, flotationCost);
    assert emitterCosts + bondholderCosts
        == structurationCost + colocationCost + flotationCost + shared;

    if c.cavaliApplyTo == Emitter || c.cavaliApplyTo == Both {
      emitterCosts := emitterCosts + cavaliCost;
    }
    if c.cavaliApplyTo == Bondholder || c.cavaliApplyTo == Both {
      bondholderCosts := bondholderCosts + cavaliCost;
    }
    shared := shared + ChargedIf(c.cavaliApplyTo == Both, cavaliCost);
    assert emitterCosts + bondholderCosts
        == structurationCost + colocationCost + flotationCost + cavaliCost + shared;
  }

  /// No assignment is `Both` exactly when the split conserves the total:
  /// every amount then lands on exactly one side.
  lemma SplitConservesTotalWithoutBoth(c: IssuanceCosts, comercialValue: real)
    requires comercialValue > 0.0
    requires c.structuration > 0.0 && c.colocation > 0.0 && c.flotation > 0.0 && c.cavali > 0.0
    ensures EmitterShare(c, comercialValue) + BondholderShare(c, comercialValue) == TotalCost(c, comercialValue)
        <==> (c.structurationApplyTo != Both && c.colocationApplyTo != Both
              && c.flotationApplyTo != Both && c.cavaliApplyTo != Both)
  {
    var v := comercialValue;
    assert CostAmount(v, c.structuration) > 0.0;
    assert CostAmount(v, c.colocation) > 0.0;
    assert CostAmount(v, c.flotation) > 0.0;
    assert CostAmount(v, c.cavali) > 0.0;
    assert EmitterShare(c, v) + BondholderShare(c, v) == TotalCost(c, v) + SharedCost(c, v);
  }
}
