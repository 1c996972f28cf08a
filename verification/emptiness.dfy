/**
  `isEmpty(obj)`: the duck-typed emptiness test the program uses to decide
  whether an API response carries a live broadcast.
 */
module Emptiness {
  import opened Json
  import opened Text

  /**
    What `isEmpty` answers, case by case in the order the program tests them:
    a falsy value is empty; a string is empty when it trims to nothing; an array
    when it has no elements (whatever they are); an object without keys when it
    is a plain object; an object with keys when every property value is empty.
    A truthy number or `true` falls off the end and yields `undefined`, which
    the program reads as "not empty".
   */
  predicate Empty(v: Value)
    decreases v
  {
    if !Truthy(v) then true
    else match v
      case Str(s) => Trim(s) == []
      case Arr(elems) => |elems| == 0
      case Obj(props, plain) =>
        if |props| == 0 then plain
        else forall i :: 0 <= i < |props| ==> Empty(props[i].val)
      case _ => false
  }

  /**
    `isEmpty` as the program runs it: the object case walks the keys in order
    with an `empty` flag and returns `false` at the first non-empty value.
   */
  method IsEmpty(v: Value) returns (empty: bool)
    ensures empty == Empty(v)
    decreases v
  {
    if !Truthy(v) {
      return true;
    }
    match v {
      case Str(s) =>
        return Trim(s) == [];
      case Arr(elems) =>
        return |elems| == 0;
      case Obj(props, plain) =>
        if |props| == 0 {
          return plain;
        }
        empty := true;
        for i := 0 to |props|
          invariant empty
          invariant forall j :: 0 <= j < i ==> Empty(props[j].val)
        {
          var e := IsEmpty(props[i].val);
          if !e {
            empty := false;
            return empty;
          }
        }
        return empty;
      case _ =>
        return false;
    }
  }

  /** A falsy value is empty; a truthy number or `true` is not. */
  lemma EmptyScalars(v: Value)
    requires !v.Str? && !v.Arr? && !v.Obj?
    ensures Empty(v) <==> !Truthy(v)
  {
  }

  /** A string is empty exactly when every character of it is whitespace. */
  lemma EmptyStringIffWhitespace(s: string)
    ensures Empty(Str(s)) <==> AllWhitespace(s)
  {
    TrimEmptyIffWhitespace(s);
  }

  /** An array is empty exactly when it has no elements: `[""]` is not empty although `""` is. */
  lemma EmptyArrayIffNoElements(elems: seq<Value>)
    ensures Empty(Arr(elems)) <==> elems == []
    ensures Empty(Str("")) && !Empty(Arr([Str("")]))
  {
  }

  /**
    `{}` is empty; an object with properties is empty exactly when all of its
    values are, and one non-empty value anywhere makes it non-empty.
   */
  lemma EmptyObject(props: seq<Prop>, plain: bool)
    ensures Empty(Obj([], true)) && !Empty(Obj([], false))
    ensures props != [] ==>
              (Empty(Obj(props, plain)) <==> forall p :: p in props ==> Empty(p.val))
  {
    if props != [] {
      if forall p :: p in props ==> Empty(p.val) {
        forall i | 0 <= i < |props| ensures Empty(props[i].val) {
          assert props[i] in props;
        }
      }
    }
  }

  /** Emptiness does not depend on the order of an object's keys. */
  lemma {:induction false} EmptyObjectOrderIrrelevant(props: seq<Prop>, props': seq<Prop>, plain: bool)
    requires multiset(props) == multiset(props')
    ensures Empty(Obj(props, plain)) == Empty(Obj(props', plain))
  {
    EmptyObject(props, plain);
    EmptyObject(props', plain);
    assert forall p :: p in props <==> p in multiset(props);
    assert forall p :: p in props' <==> p in multiset(props');
    assert props == [] <==> props' == [] by {
      assert |props| == |multiset(props)| == |multiset(props')| == |props'|;
    }
  }
}
