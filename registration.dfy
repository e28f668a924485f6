/**
 * Registration forms kept on a stack during the day and processed at the
 * end of it, most recent first.
 */
module Registration {
  datatype RegistrationForm = RegistrationForm(userName: string)

  /** s backwards. */
  function Reverse<T>(s: seq<T>): (r: seq<T>)
    ensures |r| == |s|
  {
    if s == [] then [] else Reverse(s[1..]) + [s[0]]
  }

  /** Reversal puts the element i places from the end at position i, and so is a permutation. */
  lemma {:induction false} ReverseElements<T>(s: seq<T>)
    ensures forall i :: 0 <= i < |s| ==> Reverse(s)[i] == s[|s| - 1 - i]
    ensures multiset(Reverse(s)) == multiset(s)
  {
    if s != [] {
      ReverseElements(s[1..]);
      assert s == [s[0]] + s[1..];
    }
  }

  /** Reversing an appended element brings it to the front. */
  lemma ReverseSnoc<T>(s: seq<T>, x: T)
    ensures Reverse(s + [x]) == [x] + Reverse(s)
  {
    ReverseElements(s + [x]);
    ReverseElements(s);
    var r := [x] + Reverse(s);
    assert forall i :: 0 <= i < |s| + 1 ==> Reverse(s + [x])[i] == r[i];
  }

  /** The stack of forms; forms lists them from the bottom to the top. */
  class FormStack {
    var forms: seq<RegistrationForm>

    constructor()
      ensures forms == []
    {
      forms := [];
    }

    /** push: the form goes on top; the forms below are unchanged. */
    method Push(form: RegistrationForm)
      modifies this
      ensures forms == old(forms) + [form]
    {
      forms := forms + [form];
    }

    /** top: the form most recently pushed and not yet popped. */
    method Top() returns (form: RegistrationForm)
      requires forms != []
      ensures form == forms[|forms| - 1]
    {
      form := forms[|forms| - 1];
    }

    /** pop: removes the top form. */
    method Pop()
      requires forms != []
      modifies this
      ensures forms == old(forms)[..|old(forms)| - 1]
    {
      forms := forms[..|forms| - 1];
    }

    /** size: the number of forms on the stack. */
    function Size(): (n: nat)
      reads this
      ensures n == 0 <==> forms == []
    {
      |forms|
    }
  }

  /** storeRegistrationForm: pushes the form. */
  method StoreRegistrationForm(stack: FormStack, form: RegistrationForm)
    modifies stack
    ensures stack.forms == old(stack.forms) + [form]
  {
    stack.Push(form);
  }

  /**
   * endOfDayRegistrationProcessing: takes the top form, processes it and
   * pops it until the stack is empty. The forms are processed in the
   * reverse of the order they were stored in, each exactly once; processed
   * records them in processing order.
   */
  method EndOfDayRegistrationProcessing(stack: FormStack) returns (processed: seq<RegistrationForm>)
    modifies stack
    ensures processed == Reverse(old(stack.forms))
    ensures stack.forms == []
  {
    processed := [];
    while stack.Size() != 0
      invariant Reverse(old(stack.forms)) == processed + Reverse(stack.forms)
      decreases |stack.forms|
    {
      var form := stack.Top();
      ghost var rest := stack.forms[..|stack.forms| - 1];
      assert stack.forms == rest + [form];
      ReverseSnoc(rest, form);
      processed := processed + [form];
      stack.Pop();
    }
  }

  /** The processing order of any day is a permutation of the stored forms, last stored first. */
  lemma ProcessingOrder(stored: seq<RegistrationForm>)
    ensures multiset(Reverse(stored)) == multiset(stored)
    ensures stored != [] ==> Reverse(stored)[0] == stored[|stored| - 1]
  {
    ReverseElements(stored);
  }

  /** main: Bob, Alice and Charlie are stored in that order and processed as Charlie, Alice, Bob. */
  method RegistrationDay() returns (processed: seq<RegistrationForm>)
    ensures processed == [RegistrationForm("Charlie"), RegistrationForm("Alice"), RegistrationForm("Bob")]
  {
    var registerStack := new FormStack();
    var bob, alice, charlie := RegistrationForm("Bob"), RegistrationForm("Alice"), RegistrationForm("Charlie");
    StoreRegistrationForm(registerStack, bob);
    StoreRegistrationForm(registerStack, alice);
    StoreRegistrationForm(registerStack, charlie);
    processed := EndOfDayRegistrationProcessing(registerStack);
    ReverseSnoc([bob, alice], charlie);
    ReverseSnoc([bob], alice);
    ReverseSnoc([], bob);
    assert [bob, alice, charlie] == [bob, alice] + [charlie] && [bob, alice] == [bob] + [alice] && [bob] == [] + [bob];
  }
}
