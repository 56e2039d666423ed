/** The Decorator demo: a simple coffee wrapped in any number of
    condiment decorators, each appending a label to the description and
    adding a fixed amount to the cost. Costs are in integer cents. */
module Decorator {

  /** The four concrete decorators. */
  datatype Topping = Milk | Sugar | WhippedCream | Vanilla

  /** A coffee is the simple coffee or a decorator around exactly one
      inner coffee; layers are fixed when the chain is constructed. */
  datatype Coffee = SimpleCoffee | Decorated(topping: Topping, inner: Coffee)

  const BaseDescription: string := "Simple Coffee"

  /** 2.00 in cents. */
  const BaseCost: nat := 200

  /** What a decorator appends to its inner coffee's description. */
  function Label(t: Topping): string {
    match t
    case Milk => ", Milk"
    case Sugar => ", Sugar"
    case WhippedCream => ", Whipped Cream"
    case Vanilla => ", Vanilla"
  }

  /** What a decorator adds to its inner coffee's cost, in cents
      (0.50, 0.25, 0.75 and 0.60). */
  function Increment(t: Topping): nat {
    match t
    case Milk => 50
    case Sugar => 25
    case WhippedCream => 75
    case Vanilla => 60
  }

  /** `getDescription`: always starts with "Simple Coffee". */
  function Description(c: Coffee): (r: string)
    ensures BaseDescription <= r
  {
    match c
    case SimpleCoffee => BaseDescription
    case Decorated(t, inner) => Description(inner) + Label(t)
  }

  /** `getCost`: never below the base price. */
  function Cost(c: Coffee): (r: nat)
    ensures r >= BaseCost
  {
    match c
    case SimpleCoffee => BaseCost
    case Decorated(t, inner) => Cost(inner) + Increment(t)
  }

  /** The layers of a chain, innermost first. */
  function Toppings(c: Coffee): seq<Topping> {
    match c
    case SimpleCoffee => []
    case Decorated(t, inner) => Toppings(inner) + [t]
  }

  /** The chain obtained by wrapping the simple coffee in the given
      toppings, the first one innermost. */
  function Wrap(ts: seq<Topping>): Coffee {
    if ts == [] then SimpleCoffee
    else Decorated(ts[|ts| - 1], Wrap(ts[..|ts| - 1]))
  }

  /** A chain is determined by its layers, and every list of layers is
      some chain's. */
  lemma {:induction false} WrapToppings(c: Coffee)
    ensures Wrap(Toppings(c)) == c
  {
    match c
    case SimpleCoffee =>
    case Decorated(t, inner) =>
      var ts := Toppings(c);
      assert ts[..|ts| - 1] == Toppings(inner);
      WrapToppings(inner);
  }

  lemma {:induction false} ToppingsWrap(ts: seq<Topping>)
    ensures Toppings(Wrap(ts)) == ts
  {
    if ts != [] {
      ToppingsWrap(ts[..|ts| - 1]);
    }
  }

  /** The sum of the layers' increments, as an independent fold from the
      front of the list. */
  function SumIncrements(ts: seq<Topping>): nat {
    if ts == [] then 0 else Increment(ts[0]) + SumIncrements(ts[1..])
  }

  /** The layers' labels concatenated from the front of the list. */
  function Labels(ts: seq<Topping>): string {
    if ts == [] then "" else Label(ts[0]) + Labels(ts[1..])
  }

  lemma {:induction false} SumIncrementsAppend(a: seq<Topping>, b: seq<Topping>)
    ensures SumIncrements(a + b) == SumIncrements(a) + SumIncrements(b)
  {
    if a == [] {
      assert a + b == b;
    } else {
      assert (a + b)[1..] == a[1..] + b;
      SumIncrementsAppend(a[1..], b);
    }
  }

  lemma {:induction false} LabelsAppend(a: seq<Topping>, b: seq<Topping>)
    ensures Labels(a + b) == Labels(a) + Labels(b)
  {
    if a == [] {
      assert a + b == b;
    } else {
      assert (a + b)[1..] == a[1..] + b;
      LabelsAppend(a[1..], b);
    }
  }

  lemma LabelsSnoc(ts: seq<Topping>, t: Topping)
    ensures Labels(ts + [t]) == Labels(ts) + Label(t)
  {
    LabelsAppend(ts, [t]);
    assert Labels([t]) == Label(t) by {
      assert [t][1..] == [];
    }
  }

  /** The cost of any chain is 2.00 plus its layers' increments. */
  lemma {:induction false} CostIsBasePlusIncrements(c: Coffee)
    ensures Cost(c) == BaseCost + SumIncrements(Toppings(c))
  {
    match c
    case SimpleCoffee =>
    case Decorated(t, inner) =>
      CostIsBasePlusIncrements(inner);
      SumIncrementsAppend(Toppings(inner), [t]);
  }

  /** The description of any chain is "Simple Coffee" followed by the
      layers' labels, innermost first (the outermost label comes last). */
  lemma {:induction false} DescriptionListsToppings(c: Coffee)
    ensures Description(c) == BaseDescription + Labels(Toppings(c))
  {
    match c
    case SimpleCoffee =>
    case Decorated(t, inner) =>
      var ts := Toppings(inner);
      calc {
        Description(c);
        Description(inner) + Label(t);
        { DescriptionListsToppings(inner); }
        BaseDescription + Labels(ts) + Label(t);
        { LabelsSnoc(ts, t); }
        BaseDescription + Labels(ts + [t]);
      }
  }

  lemma {:induction false} SumIncrementsPermutation(s: seq<Topping>, t: seq<Topping>)
    requires multiset(s) == multiset(t)
    ensures SumIncrements(s) == SumIncrements(t)
  {
    if s != [] {
      assert s[0] in multiset(t);
      var i :| 0 <= i < |t| && t[i] == s[0];
      var rest := t[..i] + t[i + 1..];
      assert t == t[..i] + [t[i]] + t[i + 1..];
      SumIncrementsAppend(t[..i] + [t[i]], t[i + 1..]);
      SumIncrementsAppend(t[..i], [t[i]]);
      SumIncrementsAppend(t[..i], t[i + 1..]);
      assert s == [s[0]] + s[1..];
      assert multiset(t) == multiset(t[..i]) + multiset{t[i]} + multiset(t[i + 1..]);
      assert multiset(s) == multiset{s[0]} + multiset(s[1..]);
      assert multiset(rest) == multiset(t[..i]) + multiset(t[i + 1..]);
      assert multiset(s[1..]) == multiset(s) - multiset{s[0]};
      assert multiset(rest) == multiset(t) - multiset{t[i]};
      SumIncrementsPermutation(s[1..], rest);
    }
  }

  /** Nesting order does not matter for the cost: two chains with the same
      layers in any order cost the same. */
  lemma CostIgnoresOrder(a: Coffee, b: Coffee)
    requires multiset(Toppings(a)) == multiset(Toppings(b))
    ensures Cost(a) == Cost(b)
  {
    CostIsBasePlusIncrements(a);
    CostIsBasePlusIncrements(b);
    SumIncrementsPermutation(Toppings(a), Toppings(b));
  }

  /** Adding a layer makes the description strictly longer and the
      coffee strictly dearer. */
  lemma LayerGrows(t: Topping, c: Coffee)
    ensures |Description(Decorated(t, c))| > |Description(c)|
    ensures Cost(Decorated(t, c)) > Cost(c)
  {
  }

  /** The demo's chains. */
  lemma DemoChains()
    ensures Description(SimpleCoffee) == "Simple Coffee" && Cost(SimpleCoffee) == 200
    ensures Description(Decorated(Milk, SimpleCoffee)) == "Simple Coffee, Milk"
    ensures Cost(Decorated(Milk, SimpleCoffee)) == 250
    ensures Description(Decorated(Sugar, Decorated(Milk, SimpleCoffee))) == "Simple Coffee, Milk, Sugar"
    ensures Cost(Decorated(Sugar, Decorated(Milk, SimpleCoffee))) == 275
  {
  }

  /** The demo's fancy coffee: milk, sugar, whipped cream and vanilla,
      milk innermost. */
  const Fancy: Coffee :=
    Decorated(Vanilla, Decorated(WhippedCream, Decorated(Sugar, Decorated(Milk, SimpleCoffee))))

  lemma FancyLayers()
    ensures Toppings(Fancy) == [Milk, Sugar, WhippedCream, Vanilla]
  {
  }

  lemma DemoFancyCoffee()
    ensures Description(Fancy) == "Simple Coffee, Milk, Sugar, Whipped Cream, Vanilla"
    ensures Cost(Fancy) == 410
  {
    var milk := Decorated(Milk, SimpleCoffee);
    var sugar := Decorated(Sugar, milk);
    var cream := Decorated(WhippedCream, sugar);
    assert Description(milk) == "Simple Coffee, Milk";
    assert Description(sugar) == "Simple Coffee, Milk, Sugar";
    assert Description(cream) == "Simple Coffee, Milk, Sugar, Whipped Cream";
  }
}
