/**
 * constructQueryResponseFromIterator: the entries of a rich query become one
 * JSON array text, each stored value spliced in as it is (the writer keeps
 * stored values valid JSON; nothing here checks them).
 */
module ResultSet {
  import opened Wrappers
  import opened Ledger

  /** One array member: `{"Key":"<key>", "Record":<value>}`, the key unescaped. */
  function Member(kv: KV): string {
    "{\"Key\":\"" + kv.key + "\", \"Record\":" + kv.value + "}"
  }

  /** A member is `{"Key":"`, the key as it is, `", "Record":`, the value as it is, `}`. */
  lemma MemberLayout(kv: KV)
    ensures |Member(kv)| == 8 + |kv.key| + 12 + |kv.value| + 1
    ensures Member(kv)[..8] == "{\"Key\":\"" && Member(kv)[8..8 + |kv.key|] == kv.key
    ensures Member(kv)[8 + |kv.key|..] == "\", \"Record\":" + kv.value + "}"
  {
    var head, tail := "{\"Key\":\"", "\", \"Record\":" + kv.value + "}";
    assert Member(kv) == head + kv.key + tail;
    assert |head| == 8;
    assert (head + kv.key + tail)[..8] == head;
    assert (head + kv.key + tail)[8..8 + |kv.key|] == kv.key;
    assert (head + kv.key + tail)[8 + |kv.key|..] == tail;
  }

  /** The members of the entries in iterator order, or the error of the first failed step. */
  function Members(items: seq<Item>): Result<seq<string>, string> {
    if items == [] then Ok([])
    else match items[0]
      case Err(e) => Err(e)
      case Ok(kv) =>
        match Members(items[1..])
        case Err(e) => Err(e)
        case Ok(ms) => Ok([Member(kv)] + ms)
  }

  /**
   * The members are those of all entries, one each and in iterator order,
   * exactly when no step failed; otherwise the error is that of a failed step
   * with only successful steps before it.
   */
  lemma {:induction false} MembersContents(items: seq<Item>)
    ensures Members(items).Ok? <==> forall i :: 0 <= i < |items| ==> items[i].Ok?
    ensures Members(items).Ok? ==> |Members(items).value| == |items|
    ensures Members(items).Ok? ==>
      forall i :: 0 <= i < |items| ==> Members(items).value[i] == Member(items[i].value)
    ensures Members(items).Err? ==> exists i :: 0 <= i < |items| && items[i] == Err(Members(items).error) &&
                                               forall j :: 0 <= j < i ==> items[j].Ok?
  {
    if items != [] {
      MembersContents(items[1..]);
      if items[0].Ok? && Members(items[1..]).Err? {
        var i :| 0 <= i < |items[1..]| && items[1..][i] == Err(Members(items[1..]).error) &&
                 forall j :: 0 <= j < i ==> items[1..][j].Ok?;
        assert items[i + 1] == Err(Members(items).error);
        assert forall j :: 0 <= j < i + 1 ==> items[j].Ok? by {
          forall j | 0 <= j < i + 1 ensures items[j].Ok? {
            if j > 0 { assert items[j] == items[1..][j - 1]; }
          }
        }
      }
      if Members(items).Ok? {
        forall i | 0 <= i < |items| ensures items[i].Ok? {
          if i > 0 { assert items[i] == items[1..][i - 1]; }
        }
      }
    }
  }

  /** The parts separated by commas, with no comma before the first. */
  function Join(parts: seq<string>): string {
    if parts == [] then ""
    else if |parts| == 1 then parts[0]
    else Join(parts[..|parts| - 1]) + "," + parts[|parts| - 1]
  }

  /** The response text: `[`, the members joined by commas, `]`; or the first error. */
  function Response(items: seq<Item>): (r: Result<string, string>)
    ensures r.Ok? ==> |r.value| >= 2 && r.value[0] == '[' && r.value[|r.value| - 1] == ']'
  {
    match Members(items)
    case Err(e) => Err(e)
    case Ok(ms) => Ok("[" + Join(ms) + "]")
  }

  lemma {:induction false} MembersSnoc(items: seq<Item>, ms: seq<string>, x: Item)
    requires Members(items) == Ok(ms)
    ensures Members(items + [x]) == if x.Ok? then Ok(ms + [Member(x.value)]) else Err(x.error)
  {
    if items == [] {
      assert items + [x] == [x];
      assert [x][1..] == [];
      assert Members([x][1..]) == Ok([]);
      assert ms == [];
      match x {
        case Ok(kv) =>
          assert Members([x]) == Ok([Member(kv)] + []);
          assert [Member(kv)] + [] == ms + [Member(kv)];
        case Err(e) =>
      }
    } else {
      assert (items + [x])[1..] == items[1..] + [x];
      var kv := items[0].value;
      var rest := Members(items[1..]).value;
      assert ms == [Member(kv)] + rest;
      MembersSnoc(items[1..], rest, x);
      assert (items + [x])[0] == items[0];
      if x.Ok? {
        assert [Member(kv)] + (rest + [Member(x.value)]) == ms + [Member(x.value)];
      }
    }
  }

  /** A failed step makes the whole response that step's error, whatever follows it. */
  lemma {:induction false} FirstErrorWins(oks: seq<Item>, e: string, rest: seq<Item>)
    requires forall i :: 0 <= i < |oks| ==> oks[i].Ok?
    ensures Members(oks + [Err(e)] + rest) == Err(e)
    ensures Response(oks + [Err(e)] + rest) == Err(e)
  {
    if oks != [] {
      assert (oks + [Err(e)] + rest)[1..] == oks[1..] + [Err(e)] + rest;
      FirstErrorWins(oks[1..], e, rest);
    }
  }

  /** No entries give the empty array. */
  lemma EmptyResponse()
    ensures Response([]) == Ok("[]")
  {
    assert Members([]) == Ok([]);
    assert "[" + Join([]) + "]" == "[]";
  }

  lemma JoinSnoc(parts: seq<string>, p: string)
    ensures Join(parts + [p]) == if parts == [] then p else Join(parts) + "," + p
  {
    assert (parts + [p])[..|parts|] == parts;
  }

  /**
   * One more entry adds its member before the closing bracket, preceded by a
   * comma unless it is the first.
   */
  lemma ResponseAppend(items: seq<Item>, t: string, kv: KV)
    requires Response(items) == Ok(t)
    ensures |t| >= 2
    ensures Response(items + [Ok(kv)]) ==
            Ok(t[..|t| - 1] + (if items == [] then "" else ",") + Member(kv) + "]")
  {
    var ms := Members(items).value;
    MembersSnoc(items, ms, Ok(kv));
    MembersContents(items);
    assert t == "[" + Join(ms) + "]";
    assert |ms| == |items|;
    assert t[..|t| - 1] == "[" + Join(ms);
    JoinSnoc(ms, Member(kv));
    var sep := if items == [] then "" else ",";
    assert "[" + Join(ms + [Member(kv)]) + "]" == t[..|t| - 1] + sep + Member(kv) + "]";
  }

  /** The buffer after one more member: a comma first unless nothing was written yet. */
  lemma BufferStep(written: seq<string>, member: string, buffer: string)
    requires buffer == "[" + Join(written) + (if written != [] then "," else "") + member
    ensures buffer == "[" + Join(written + [member])
  {
    JoinSnoc(written, member);
  }

  /**
   * The loop of constructQueryResponseFromIterator: HasNext/Next until the
   * end, a comma before every member but the first, and on the first failed
   * step its error and no text.
   */
  method ConstructQueryResponseFromIterator(it: ResultsIterator) returns (r: Result<string, string>)
    requires it.Valid()
    modifies it`pos
    ensures it.Valid()
    ensures r == Response(old(it.items[it.pos..]))
    ensures r.Ok? ==> it.pos == |it.items|
  {
    ghost var start := it.pos;
    var buffer := "[";
    var alreadyWritten := false;
    ghost var written: seq<string> := [];
    var more := it.HasNext();
    while more
      invariant it.Valid() && start <= it.pos
      invariant more <==> it.pos < |it.items|
      invariant Members(it.items[start..it.pos]) == Ok(written)
      invariant buffer == "[" + Join(written)
      invariant alreadyWritten <==> written != []
      decreases |it.items| - it.pos
    {
      ghost var before := it.items[start..it.pos];
      var item := it.Next();
      assert Members(it.items[start..it.pos]) ==
             if item.Ok? then Ok(written + [Member(item.value)]) else Err(item.error) by {
        assert it.items[start..it.pos] == before + [item];
        MembersSnoc(before, written, item);
      }
      if item.Err? {
        assert Response(it.items[start..]) == Err(item.error) by {
          assert it.items[start..] == before + [item] + it.items[it.pos..];
          MembersContents(before);
          FirstErrorWins(before, item.error, it.items[it.pos..]);
        }
        return Err(item.error);
      }
      var kv := item.value;
      if alreadyWritten {
        buffer := buffer + ",";
      }
      var member := "{\"Key\":" + "\"" + kv.key + "\"" + ", \"Record\":" + kv.value + "}";
      assert member == Member(kv) by {
        assert "{\"Key\":" + "\"" == "{\"Key\":\"";
        assert "\"" + ", \"Record\":" == "\", \"Record\":";
      }
      buffer := buffer + member;
      BufferStep(written, member, buffer);
      written := written + [member];
      alreadyWritten := true;
      more := it.HasNext();
    }
    assert it.items[start..] == it.items[start..it.pos];
    buffer := buffer + "]";
    r := Ok(buffer);
  }
}
