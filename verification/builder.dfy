/** The Builder demo: a `User` whose four fields are collected one setter
    call at a time and then copied out by `build`. */
module Builder {
  import opened JavaLang

  datatype User = User(name: Nullable<string>, age: Int32, email: Nullable<string>, active: bool)

  /** The builder's fields, with Java's defaults until a setter runs. */
  datatype Builder = Builder(name: Nullable<string>, age: Int32, email: Nullable<string>, active: bool)

  const NewBuilder: Builder := Builder(Null, 0, Null, false)

  // The setters: each changes its own field only, without any validation,
  // and hands back the builder for further chaining.

  function Name(b: Builder, v: Nullable<string>): (r: Builder)
    ensures r.name == v
    ensures r.age == b.age && r.email == b.email && r.active == b.active
  {
    b.(name := v)
  }

  function Age(b: Builder, v: Int32): (r: Builder)
    ensures r.age == v
    ensures r.name == b.name && r.email == b.email && r.active == b.active
  {
    b.(age := v)
  }

  function Email(b: Builder, v: Nullable<string>): (r: Builder)
    ensures r.email == v
    ensures r.name == b.name && r.age == b.age && r.active == b.active
  {
    b.(email := v)
  }

  function Active(b: Builder, v: bool): (r: Builder)
    ensures r.active == v
    ensures r.name == b.name && r.age == b.age && r.email == b.email
  {
    b.(active := v)
  }

  /** `build` through the private `User` constructor: a snapshot of the
      builder's current fields. The builder itself is left as it was, and
      the user is a separate value that later setter calls cannot reach. */
  function Build(b: Builder): (u: User)
    ensures u.name == b.name && u.age == b.age && u.email == b.email && u.active == b.active
  {
    User(b.name, b.age, b.email, b.active)
  }

  /** One setter call in a chain. */
  datatype Call = SetName(name: Nullable<string>) | SetAge(age: Int32) | SetEmail(email: Nullable<string>) | SetActive(active: bool)

  function Apply(b: Builder, c: Call): Builder {
    match c
    case SetName(v) => Name(b, v)
    case SetAge(v) => Age(b, v)
    case SetEmail(v) => Email(b, v)
    case SetActive(v) => Active(b, v)
  }

  /** A chain of setter calls, evaluated left to right. */
  function Chain(b: Builder, calls: seq<Call>): Builder
    decreases |calls|
  {
    if calls == [] then b else Chain(Apply(b, calls[0]), calls[1..])
  }

  lemma {:induction false} ChainSnoc(b: Builder, calls: seq<Call>, c: Call)
    ensures Chain(b, calls + [c]) == Apply(Chain(b, calls), c)
    decreases |calls|
  {
    if calls == [] {
      assert calls + [c] == [c];
    } else {
      assert (calls + [c])[1..] == calls[1..] + [c];
      ChainSnoc(Apply(b, calls[0]), calls[1..], c);
    }
  }

  // The value of each field after a chain, found by looking for the last
  // call that sets it.

  function LastName(calls: seq<Call>, initial: Nullable<string>): Nullable<string> {
    if calls == [] then initial
    else if calls[|calls| - 1].SetName? then calls[|calls| - 1].name
    else LastName(calls[..|calls| - 1], initial)
  }

  function LastAge(calls: seq<Call>, initial: Int32): Int32 {
    if calls == [] then initial
    else if calls[|calls| - 1].SetAge? then calls[|calls| - 1].age
    else LastAge(calls[..|calls| - 1], initial)
  }

  function LastEmail(calls: seq<Call>, initial: Nullable<string>): Nullable<string> {
    if calls == [] then initial
    else if calls[|calls| - 1].SetEmail? then calls[|calls| - 1].email
    else LastEmail(calls[..|calls| - 1], initial)
  }

  function LastActive(calls: seq<Call>, initial: bool): bool {
    if calls == [] then initial
    else if calls[|calls| - 1].SetActive? then calls[|calls| - 1].active
    else LastActive(calls[..|calls| - 1], initial)
  }

  /** Whatever chain of setters runs, each field of the built user holds
      the value of the last call that set it, or the builder's earlier value
      when no call did. */
  lemma {:induction false} LastWriteWins(b: Builder, calls: seq<Call>)
    ensures Build(Chain(b, calls)) == User(LastName(calls, b.name), LastAge(calls, b.age),
                                           LastEmail(calls, b.email), LastActive(calls, b.active))
    decreases |calls|
  {
    if calls != [] {
      var init := calls[..|calls| - 1];
      assert calls == init + [calls[|calls| - 1]];
      ChainSnoc(b, init, calls[|calls| - 1]);
      LastWriteWins(b, init);
    }
  }

  lemma {:induction false} LastOfUntouched(calls: seq<Call>, name: Nullable<string>, age: Int32,
                                           email: Nullable<string>, active: bool)
    ensures (forall k | 0 <= k < |calls| :: !calls[k].SetName?) ==> LastName(calls, name) == name
    ensures (forall k | 0 <= k < |calls| :: !calls[k].SetAge?) ==> LastAge(calls, age) == age
    ensures (forall k | 0 <= k < |calls| :: !calls[k].SetEmail?) ==> LastEmail(calls, email) == email
    ensures (forall k | 0 <= k < |calls| :: !calls[k].SetActive?) ==> LastActive(calls, active) == active
  {
    if calls != [] {
      LastOfUntouched(calls[..|calls| - 1], name, age, email, active);
    }
  }

  /** A field that no setter in the chain touches keeps its value; from a
      fresh builder that is Java's default: null name and email, age 0,
      inactive. */
  lemma UntouchedFieldsKeepDefaults(calls: seq<Call>)
    ensures (forall k | 0 <= k < |calls| :: !calls[k].SetName?) ==> Build(Chain(NewBuilder, calls)).name == Null
    ensures (forall k | 0 <= k < |calls| :: !calls[k].SetAge?) ==> Build(Chain(NewBuilder, calls)).age == 0
    ensures (forall k | 0 <= k < |calls| :: !calls[k].SetEmail?) ==> Build(Chain(NewBuilder, calls)).email == Null
    ensures (forall k | 0 <= k < |calls| :: !calls[k].SetActive?) ==> !Build(Chain(NewBuilder, calls)).active
  {
    LastWriteWins(NewBuilder, calls);
    LastOfUntouched(calls, Null, 0, Null, false);
  }

  /** Calling a setter twice keeps the second value. */
  lemma SetTwice(b: Builder, n1: Nullable<string>, n2: Nullable<string>, a1: Int32, a2: Int32,
                 e1: Nullable<string>, e2: Nullable<string>, f1: bool, f2: bool)
    ensures Name(Name(b, n1), n2) == Name(b, n2)
    ensures Age(Age(b, a1), a2) == Age(b, a2)
    ensures Email(Email(b, e1), e2) == Email(b, e2)
    ensures Active(Active(b, f1), f2) == Active(b, f2)
  {
  }

  /** The demo's chain, and a negative age accepted without complaint. */
  lemma DemoUser()
    ensures Build(Active(Email(Age(Name(NewBuilder, Ref("John Doe")), 30), Ref("rguig.medamine@gmail.com")), true))
         == User(Ref("John Doe"), 30, Ref("rguig.medamine@gmail.com"), true)
    ensures Build(Age(NewBuilder, -5)).age == -5
  {
  }
}
