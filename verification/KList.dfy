/** h/klist.hpp: the linked queue behind the scheduler and the semaphores, as a list of its data. */
module KLists {
  import opened Wrappers

  class Elem<T> {
    var data: T
    var next: Elem?<T>

    constructor (data: T, next: Elem?<T>)
      ensures this.data == data && this.next == next
    {
      this.data, this.next := data, next;
    }
  }

  /** Element i, or null past the end. */
  ghost function At<T>(elems: seq<Elem<T>>, i: nat): Elem?<T> {
    if i < |elems| then elems[i] else null
  }

  lemma AtCons<T>(e: Elem<T>, es: seq<Elem<T>>, i: nat)
    ensures At([e] + es, i) == if i == 0 then e else At(es, i - 1)
  {
  }

  lemma AtAppend<T>(es: seq<Elem<T>>, e: Elem<T>, i: nat)
    ensures At(es + [e], i) == if i == |es| then e else At(es, i)
  {
  }

  lemma AtEnd<T>(es: seq<Elem<T>>)
    ensures At(es, |es|) == null && At(es, |es| + 1) == null && (es != [] ==> At(es, 0) == es[0])
  {
  }

  class KList<T> {
    var head: Elem?<T>
    var tail: Elem?<T>
    ghost var elems: seq<Elem<T>>

    /** head and next run through elems in order, and tail is the last of them. */
    ghost predicate Valid()
      reads this, elems
    {
      && (forall i, j :: 0 <= i < j < |elems| ==> elems[i] != elems[j])
      && head == At(elems, 0)
      && tail == (if elems == [] then null else elems[|elems| - 1])
      && (forall i :: 0 <= i < |elems| ==> elems[i].next == At(elems, i + 1))
    }

    /** The data in queue order. */
    ghost function Contents(): (s: seq<T>)
      reads this, elems
      ensures |s| == |elems|
    {
      seq(|elems|, i requires 0 <= i < |elems| reads this, elems => elems[i].data)
    }

    constructor ()
      ensures Valid() && Contents() == [] && elems == []
    {
      head, tail, elems := null, null, [];
    }

    /** available: whether kListElemCache has an element left; if not, the datum is dropped. */
    method AddFirst(data: T, available: bool)
      requires Valid()
      modifies this
      ensures Valid() && Contents() == if available then [data] + old(Contents()) else old(Contents())
      ensures fresh(set e | e in elems && e !in old(elems))
    {
      hide At;
      if !available {
        return;
      }
      ghost var es, c := elems, Contents();
      var elem := new Elem(data, head);
      head := elem;
      if tail == null {
        tail := head;
      }
      elems := [elem] + elems;
      AtCons(elem, es, 0);
      forall i | 0 <= i < |elems|
        ensures elems[i].next == At(elems, i + 1)
      {
        AtCons(elem, es, i + 1);
        if i > 0 {
          assert elems[i] == es[i - 1];
        }
      }
      assert Contents() == [data] + c;
    }

    method AddLast(data: T, available: bool)
      requires Valid()
      modifies this, elems
      ensures Valid() && Contents() == if available then old(Contents()) + [data] else old(Contents())
      ensures fresh(set e | e in elems && e !in old(elems))
    {
      hide At;
      if !available {
        return;
      }
      ghost var es, c := elems, Contents();
      AtEnd(es);
      var elem := new Elem(data, null);
      if tail != null {
        tail.next := elem;
        tail := elem;
      } else {
        head := elem;
        tail := elem;
      }
      elems := elems + [elem];
      AtAppend(es, elem, 0);
      forall i | 0 <= i < |elems|
        ensures elems[i].next == At(elems, i + 1)
      {
        AtAppend(es, elem, i + 1);
        if i < |es| {
          assert elems[i] == es[i];
        }
      }
      assert Contents() == c + [data];
    }

    /** The first datum, or none when the queue is empty. */
    method RemoveFirst() returns (ret: Option<T>)
      requires Valid()
      modifies this
      ensures Valid()
      ensures old(Contents()) == [] ==> ret == None && Contents() == []
      ensures old(Contents()) != [] ==> ret == Some(old(Contents())[0]) && Contents() == old(Contents())[1..]
      ensures forall e :: e in elems ==> e in old(elems)
    {
      if head == null {
        return None;
      }
      ghost var es := elems;
      var elem := head;
      assert elem == es[0] && es[0].next == At(es, 1);
      head := head.next;
      if head == null {
        tail := null;
      }
      elems := elems[1..];
      forall i | 0 <= i < |elems|
        ensures elems[i].next == At(elems, i + 1)
      {
        assert elems[i] == es[i + 1] && es[i + 1].next == old(es[i + 1].next);
      }
      ret := Some(elem.data);
    }

    method PeekFirst() returns (ret: Option<T>)
      requires Valid()
      ensures ret == if Contents() == [] then None else Some(Contents()[0])
    {
      ret := if head == null then None else Some(head.data);
    }

    method PeekLast() returns (ret: Option<T>)
      requires Valid()
      ensures ret == if Contents() == [] then None else Some(Contents()[|Contents()| - 1])
    {
      ret := if tail == null then None else Some(tail.data);
    }
  }
}
