/** What a sequence of Puts and Appends leaves under a key, said without any table: the value of the last
Put, followed by the values of the Appends after it. */
module WriteLog {

  datatype Write = NoWrite | Put(key: string, value: string) | Append(key: string, value: string)

  ghost predicate IsOn(w: Write, key: string) {
    !w.NoWrite? && w.key == key
  }

  ghost predicate Touches(writes: seq<Write>, key: string) {
    exists i :: 0 <= i < |writes| && IsOn(writes[i], key)
  }

  /** The value of the last Put on the key, if there is one, and of the Appends after it. */
  ghost function Pieces(writes: seq<Write>, key: string): seq<string> {
    if writes == [] then []
    else
      var n := |writes| - 1;
      if writes[n].Put? && writes[n].key == key then [writes[n].value]
      else Pieces(writes[..n], key) + if writes[n].Append? && writes[n].key == key then [writes[n].value] else []
  }

  ghost function Joined(pieces: seq<string>): string {
    if pieces == [] then "" else Joined(pieces[..|pieces| - 1]) + pieces[|pieces| - 1]
  }

  ghost function ValueOf(writes: seq<Write>, key: string): string {
    Joined(Pieces(writes, key))
  }

  /** One more write. */
  lemma ValueNext(writes: seq<Write>, w: Write, key: string)
    ensures ValueOf(writes + [w], key) ==
            if !IsOn(w, key) then ValueOf(writes, key)
            else if w.Put? then w.value
            else ValueOf(writes, key) + w.value
  {
    var all, before := writes + [w], Pieces(writes, key);
    assert all[..|writes|] == writes;
    if !IsOn(w, key) {
      assert before + [] == before;
    } else if w.Put? {
      assert [w.value][..0] == [];
      assert Joined([w.value]) == Joined([]) + w.value;
    } else {
      assert (before + [w.value])[..|before|] == before;
    }
  }

  lemma TouchesNext(writes: seq<Write>, w: Write, key: string)
    ensures Touches(writes + [w], key) <==> Touches(writes, key) || IsOn(w, key)
  {
    if Touches(writes, key) {
      var i :| 0 <= i < |writes| && IsOn(writes[i], key);
      assert (writes + [w])[i] == writes[i];
    }
    if IsOn(w, key) {
      assert (writes + [w])[|writes|] == w;
    }
  }

  /** A key that nothing was written under has no pieces. */
  lemma {:induction false} UntouchedIsEmpty(writes: seq<Write>, key: string)
    requires !Touches(writes, key)
    ensures ValueOf(writes, key) == ""
    decreases |writes|
  {
    if writes != [] {
      var n := |writes| - 1;
      assert writes == writes[..n] + [writes[n]];
      TouchesNext(writes[..n], writes[n], key);
      ValueNext(writes[..n], writes[n], key);
      UntouchedIsEmpty(writes[..n], key);
    }
  }

  /** A table holds what the writes leave: nothing under keys that were not touched. */
  ghost predicate Holds(mp: map<string, string>, writes: seq<Write>) {
    forall key :: (key in mp <==> Touches(writes, key)) && (key in mp ==> mp[key] == ValueOf(writes, key))
  }
}
