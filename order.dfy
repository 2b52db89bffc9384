/** Listings sorted by creation time, newest first (the `created: -1` sort). */
module Order {
  import opened Lists

  /** `s` lists keys of `created` so that creation times never increase along it. */
  ghost predicate NewestFirst(s: seq<nat>, created: map<nat, nat>) {
    && (forall i :: 0 <= i < |s| ==> s[i] in created)
    && (forall i, j :: 0 <= i < j < |s| ==> created[s[i]] >= created[s[j]])
  }

  /** An entry no older than anything in a newest-first listing may go in front of it. */
  lemma PrependNewest(x: nat, s: seq<nat>, created: map<nat, nat>)
    requires x in created && NewestFirst(s, created)
    requires forall j :: 0 <= j < |s| ==> created[x] >= created[s[j]]
    ensures NewestFirst([x] + s, created)
  {
    var r := [x] + s;
    forall i, j | 0 <= i < j < |r| ensures created[r[i]] >= created[r[j]] {
      if i > 0 {
        assert r[i] == s[i - 1] && r[j] == s[j - 1];
      }
    }
  }

  /** Puts `id` into a newest-first listing in front of every entry that is not newer. */
  function Insert(s: seq<nat>, id: nat, created: map<nat, nat>): (r: seq<nat>)
    requires id in created && NewestFirst(s, created)
    ensures forall y :: y in r <==> y in s || y == id
    ensures |r| == |s| + 1
    ensures NewestFirst(r, created)
    ensures NoDup(s) && id !in s ==> NoDup(r)
  {
    if s == [] || created[id] >= created[s[0]] then
      PrependNewest(id, s, created);
      if NoDup(s) && id !in s then NoDupPrepend(id, s); [id] + s else [id] + s
    else
      var rest := Insert(s[1..], id, created);
      assert forall j :: 0 <= j < |rest| ==> created[s[0]] >= created[rest[j]] by {
        forall j | 0 <= j < |rest| ensures created[s[0]] >= created[rest[j]] {
          if rest[j] != id {
            assert rest[j] in rest;
            var m :| 0 <= m < |s| - 1 && s[1..][m] == rest[j];
            assert s[m + 1] == rest[j];
          }
        }
      }
      PrependNewest(s[0], rest, created);
      if NoDup(s) && id !in s then
        assert s[0] !in s[1..];
        NoDupPrepend(s[0], rest);
        [s[0]] + rest
      else [s[0]] + rest
  }
}
