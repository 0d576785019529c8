// The packet array of prot_body.h: packet number s lives in entry
// s & PACKET_MASK, that is s % 8192.  Seen from the number `base` up to which
// everything was freed, the array is a map from the 8192 numbers above it.
module PacketBuffer {
  import opened Types

  datatype Entry = Empty | Full(slot: Slot)

  function View(a: seq<Entry>, base: int): map<int, Slot>
    requires |a| == MAX_PACKETS_IN_STRUCT
  {
    map s | base < s <= base + MAX_PACKETS_IN_STRUCT && a[s % MAX_PACKETS_IN_STRUCT].Full?
          :: a[s % MAX_PACKETS_IN_STRUCT].slot
  }

  lemma {:induction false} ViewAt(a: seq<Entry>, base: int, s: int)
    requires |a| == MAX_PACKETS_IN_STRUCT && base < s <= base + MAX_PACKETS_IN_STRUCT
    ensures s in View(a, base) <==> a[s % MAX_PACKETS_IN_STRUCT].Full?
    ensures s in View(a, base) ==> View(a, base)[s] == a[s % MAX_PACKETS_IN_STRUCT].slot
  {
  }

  // Within the window no two numbers share an entry.
  lemma {:induction false} OwnEntry(base: int, s: int, x: int)
    requires base < s <= base + MAX_PACKETS_IN_STRUCT && base < x <= base + MAX_PACKETS_IN_STRUCT
    requires s % MAX_PACKETS_IN_STRUCT == x % MAX_PACKETS_IN_STRUCT
    ensures s == x
  {
  }

  lemma {:induction false} ViewStore(a: seq<Entry>, base: int, s: int, e: Entry)
    requires |a| == MAX_PACKETS_IN_STRUCT && base < s <= base + MAX_PACKETS_IN_STRUCT
    ensures View(a[s % MAX_PACKETS_IN_STRUCT := e], base)
         == if e.Full? then View(a, base)[s := e.slot] else View(a, base) - {s}
  {
    var b := a[s % MAX_PACKETS_IN_STRUCT := e];
    forall x | base < x <= base + MAX_PACKETS_IN_STRUCT && x % MAX_PACKETS_IN_STRUCT == s % MAX_PACKETS_IN_STRUCT
      ensures x == s
    {
      OwnEntry(base, s, x);
    }
  }

  // The window may move past entries that are empty.
  lemma {:induction false} ViewSlide(a: seq<Entry>, base: int, to: int)
    requires |a| == MAX_PACKETS_IN_STRUCT && base <= to <= base + MAX_PACKETS_IN_STRUCT
    requires forall s :: s in View(a, base) ==> to < s
    ensures View(a, to) == View(a, base)
  {
    forall s | s in View(a, to) ensures s in View(a, base) {
      if base + MAX_PACKETS_IN_STRUCT < s {
        var x := s - MAX_PACKETS_IN_STRUCT;
        assert x % MAX_PACKETS_IN_STRUCT == s % MAX_PACKETS_IN_STRUCT;
        ViewAt(a, base, x);
      }
    }
  }

  lemma {:induction false} ViewEmpty(a: seq<Entry>, base: int)
    requires |a| == MAX_PACKETS_IN_STRUCT
    ensures View(a, base) == map[] <==> forall x :: 0 <= x < |a| ==> a[x].Empty?
  {
    forall x | 0 <= x < |a| && a[x].Full? ensures View(a, base) != map[] {
      var s := base + 1 + (x - base - 1) % MAX_PACKETS_IN_STRUCT;
      assert s % MAX_PACKETS_IN_STRUCT == x;
      ViewAt(a, base, s);
    }
    forall s | s in View(a, base) ensures exists x :: 0 <= x < |a| && a[x].Full? {
      assert a[s % MAX_PACKETS_IN_STRUCT].Full?;
    }
  }

  lemma {:induction false} EmptyAnywhere(a: seq<Entry>, base: int, other: int)
    requires |a| == MAX_PACKETS_IN_STRUCT && View(a, base) == map[]
    ensures View(a, other) == map[]
  {
    ViewEmpty(a, base);
    ViewEmpty(a, other);
  }
}
