/** The JSON path picker (components/JsonDataPicker.tsx): a chosen path such as `."customer"."name"`
    becomes the template placeholder `{{ customer.name }}`. */
module JsonPicker {
  import opened Common

  /** `s.replaceAll(c, '')` */
  function RemoveAll(s: string, c: char): (r: string)
    ensures c !in r
    ensures |r| == |s| - multiset(s)[c]
    ensures forall d :: d != c ==> multiset(r)[d] == multiset(s)[d]
  {
    if s == [] then []
    else
      assert s == [s[0]] + s[1..];
      (if s[0] == c then [] else [s[0]]) + RemoveAll(s[1..], c)
  }

  /** `s.replace(c, '')` with a one-character string pattern: only the first occurrence goes. */
  function RemoveFirst(s: string, c: char): (r: string)
    ensures c !in s ==> r == s
    ensures c in s ==> |r| == |s| - 1
  {
    if s == [] then []
    else
      assert s == [s[0]] + s[1..];
      if s[0] == c then s[1..] else [s[0]] + RemoveFirst(s[1..], c)
  }

  /** `insertText`: strip the quotes, drop the first dot, wrap in `{{ ` and ` }}`. */
  function Placeholder(path: string): string {
    "{{ " + RemoveFirst(RemoveAll(path, '"'), '.') + " }}"
  }

  /** Only the first occurrence is removed: the result is the input with the character at the
      first occurrence cut out, so every later occurrence stays. */
  lemma RemoveFirstCutsFirstOccurrence(s: string, c: char)
    requires c in s
    ensures var k := FirstIndex(s, c); RemoveFirst(s, c) == s[..k] + s[k + 1..]
  {
    RemoveFirstAt(s, c, FirstIndex(s, c));
  }

  lemma {:induction false} RemoveFirstAt(s: string, c: char, k: nat)
    requires k < |s| && s[k] == c && c !in s[..k]
    ensures RemoveFirst(s, c) == s[..k] + s[k + 1..]
  {
    if k > 0 {
      var t := s[1..];
      assert s[0] in s[..k];
      assert t[..k - 1] == s[1..k];
      assert c !in t[..k - 1];
      RemoveFirstAt(t, c, k - 1);
      assert RemoveFirst(s, c) == [s[0]] + RemoveFirst(t, c);
      assert s[..k] == [s[0]] + t[..k - 1];
      assert s[k + 1..] == t[k..];
    }
  }

  /** Removing the first occurrence takes exactly one `c` away and keeps every other character. */
  lemma RemoveFirstCounts(s: string, c: char)
    requires c in s
    ensures multiset(RemoveFirst(s, c)) == multiset(s) - multiset{c}
  {
    var k := FirstIndex(s, c);
    RemoveFirstAt(s, c, k);
    assert s == s[..k] + [c] + s[k + 1..];
  }

  /** Wrapping in `{{ ` and ` }}` adds six characters, none of them a quote or a dot. */
  lemma Braced(m: string)
    ensures var r := "{{ " + m + " }}";
            && |r| == |m| + 6
            && r[..3] == "{{ " && r[|r| - 3..] == " }}" && r[3..|r| - 3] == m
            && multiset(r)['"'] == multiset(m)['"'] && multiset(r)['.'] == multiset(m)['.']
  {
    var r := "{{ " + m + " }}";
    assert multiset(r) == multiset("{{ ") + multiset(m) + multiset(" }}");
  }

  /** The placeholder is the stripped path between `{{ ` and ` }}`, and holds no quote. */
  lemma PlaceholderFrame(path: string)
    ensures var r := Placeholder(path);
            && |r| >= 6
            && r[..3] == "{{ " && r[|r| - 3..] == " }}"
            && r[3..|r| - 3] == RemoveFirst(RemoveAll(path, '"'), '.')
            && '"' !in r
  {
    var stripped := RemoveAll(path, '"');
    var mid := RemoveFirst(stripped, '.');
    Braced(mid);
    if '.' in stripped {
      RemoveFirstCounts(stripped, '.');
    }
    assert multiset(mid)['"'] == 0;
  }

  /** Exactly one dot goes when the path holds one, and the length follows: every quote and
      that one dot removed, six characters of braces and spaces added. */
  lemma PlaceholderCounts(path: string)
    ensures var r := Placeholder(path);
            var dot := if '.' in path then 1 else 0;
            && multiset(r)['.'] == multiset(path)['.'] - dot
            && |r| == |path| - multiset(path)['"'] - dot + 6
  {
    var stripped := RemoveAll(path, '"');
    var mid := RemoveFirst(stripped, '.');
    Braced(mid);
    assert multiset(stripped)['.'] == multiset(path)['.'];
    assert '.' in path <==> '.' in stripped;
    if '.' in stripped {
      RemoveFirstCounts(stripped, '.');
    }
  }
}
