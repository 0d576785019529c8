// The loops of Send_new_packets and Deliver_packet as they are written.
module PackingMethods {
  import opened Types
  import opened Packing
  import S = PackedServices

  // Down_queue and its cur_element.
  class DownQueue {
    var messages: seq<Message>
    var cur: int

    ghost function Contents(): Queue
      reads this
    {
      Queue(messages, cur)
    }

    constructor ()
      ensures Contents() == Queue([], 0)
    {
      messages := [];
      cur := 0;
    }

    // Step to the next element; the index that goes with the one just taken.
    method Next() returns (index: int)
      requires QueueOK(Contents()) && messages != []
      modifies this
      ensures index == FragIndex(|old(messages)[0].frags|, old(cur)) && Contents() == Advance(old(Contents()))
    {
      var n := |messages[0].frags|;
      cur := cur + 1;
      if cur < n {
        index := cur;
      } else {
        index := -n;
        messages := messages[1..];
        cur := 0;
      }
    }

    // The inner loop of Send_new_packets: fill one packet.
    method FillPacket() returns (w: Wire)
      requires QueueOK(Contents()) && messages != []
      modifies this
      ensures var r := PackOne(old(Contents())); w == r.w && Contents() == r.rest
      ensures QueueOK(Contents()) && S.Takes(old(Contents()), w, Contents())
    {
      hide Fill, Header, S.Takes;
      S.PackOneTakes(Contents());
      ghost var end := PackOne(Contents());
      var service, first := messages[0].service, messages[0].frags[cur];
      var body := first;
      var firstIndex := Next();
      w := Wire(service, firstIndex, |first|, body);
      while messages != []
        invariant QueueOK(Contents()) && Fill(w, Contents()) == end && w.body == body && w.service == service
        decreases |messages|, if messages == [] then 0 else |messages[0].frags| - cur
      {
        FillOne(w, Contents());
        var padding := Padding(|body|);
        var available := PACKET_BODY_SIZE - |body| - padding - FRAGMENT_HEADER_SIZE;
        var f := messages[0].frags[cur];
        if |f| > available { return; }
        if service != messages[0].service {
          if !Mixes(service) || !Mixes(messages[0].service) { return; }
        }
        var index := Next();
        body := body + Zeros(padding) + Header(index, |f|) + f;
        w := w.(body := body);
      }
      FillOne(w, Contents());
    }
  }

  lemma {:induction false} FillOne(w: Wire, q: Queue)
    requires QueueOK(q)
    ensures Fill(w, q) == if Fits(w, q) then Fill(Append(w, q), Advance(q)) else Packed(w, q)
  {
  }

  // One entry of Up_queue, and what was handed to the sessions.
  class UpQueue {
    var parts: seq<seq<Byte>>
    var out: seq<seq<seq<Byte>>>
    var fault: bool

    ghost function Contents(): Up
      reads this
    {
      Up(parts, out, fault)
    }

    constructor ()
      ensures Contents() == Up([], [], false)
    {
      parts := [];
      out := [];
      fault := false;
    }

    // Deliver_packet.
    method DeliverPacket(w: Wire)
      requires !fault && 0 <= w.firstLen <= |w.body|
      modifies this
      ensures if Deliver(old(Contents()), w).fault then fault else Contents() == Deliver(old(Contents()), w)
    {
      hide Inner, Decode16;
      var inner := ParseInner(w.body, w.firstLen);
      var up := if Early(w) then [] else parts;
      var index := w.firstIndex;
      if index < 0 { index := -index; }
      if |up| + 1 != index {
        fault := true;
        return;
      }
      up := up + [w.body[..w.firstLen]];
      if w.firstIndex < 0 {
        out := out + [up];
        if !Early(w) { parts := []; }
      } else {
        parts := up;
      }
      ghost var sofar := out;
      var i := 0;
      while i < |inner|
        invariant 0 <= i <= |inner| && !fault && out == sofar + Singles(inner[..i]) && parts == Deliver(old(Contents()), w).parts
      {
        out := out + [[inner[i]]];
        i := i + 1;
        assert Singles(inner[..i]) == Singles(inner[..i - 1]) + [[inner[i - 1]]];
      }
      assert inner[..i] == inner;
    }
  }

  // The parsing loop of Deliver_packet.
  method ParseInner(body: seq<Byte>, firstLen: nat) returns (found: seq<seq<Byte>>)
    ensures found == Inner(body, firstLen).messages
  {
    hide Inner, Decode16, Padding;
    found := [];
    var processed := firstLen;
    InnerOne(body, processed);
    while processed < |body|
      invariant found + Inner(body, processed).messages == Inner(body, firstLen).messages
      decreases |body| - processed
    {
      InnerOne(body, processed);
      var h := processed + Padding(processed);
      if |body| < h + FRAGMENT_HEADER_SIZE { return; }
      var len := Decode16(body[h + 2..h + 4]);
      processed := h + FRAGMENT_HEADER_SIZE;
      if len < 0 || processed + len > |body| { return; }
      found := found + [body[processed..processed + len]];
      processed := processed + len;
    }
    InnerOne(body, processed);
  }

  lemma {:induction false} InnerOne(body: seq<Byte>, at: nat)
    ensures Inner(body, at) ==
            if |body| <= at then Parsed([], true)
            else
              var h := at + Padding(at);
              if |body| < h + FRAGMENT_HEADER_SIZE then Parsed([], false)
              else
                var len := Decode16(body[h + 2..h + 4]);
                var f := h + FRAGMENT_HEADER_SIZE;
                if len < 0 || |body| < f + len then Parsed([], false)
                else Parsed([body[f..f + len]] + Inner(body, f + len).messages, Inner(body, f + len).valid)
  {
  }
}
