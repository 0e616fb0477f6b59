/** Small value-level vocabulary shared by the bot model: optional values
    standing for JavaScript's `null`/`undefined`, the truthiness of optional
    strings, and substring containment used to state what a rendered message
    carries. */
module Values {

  /** A value that may be absent (`null` or `undefined` in the bot). */
  datatype Option<+T> = None | Some(value: T) {

    /** The value, or `default` when absent: JavaScript's `x || default`
        for an object-valued `x`. */
    function GetOr(default: T): (r: T)
      ensures Some? ==> r == value
      ensures None? ==> r == default
    {
      match this
      case Some(v) => v
      case None => default
    }
  }

  /** JavaScript truthiness of an optional string: present and not `""`. */
  predicate Truthy(s: Option<string>) {
    s.Some? && s.value != ""
  }

  /** `needle` occurs in `hay` starting at position `i`. */
  predicate OccursAt(hay: string, needle: string, i: int) {
    0 <= i && i + |needle| <= |hay| && hay[i..i + |needle|] == needle
  }

  /** `needle` is a substring of `hay`. */
  predicate Contains(hay: string, needle: string) {
    exists i | 0 <= i <= |hay| :: OccursAt(hay, needle, i)
  }

  /** A string sandwiched between two others is contained in the result. */
  lemma ContainsMiddle(a: string, needle: string, b: string)
    ensures Contains(a + needle + b, needle)
  {
    var hay := a + needle + b;
    assert hay[|a|..|a| + |needle|] == needle;
    assert OccursAt(hay, needle, |a|);
  }

  /** Containment survives appending text on either side. */
  lemma {:induction false} ContainsExtend(pre: string, hay: string, post: string, needle: string)
    requires Contains(hay, needle)
    ensures Contains(pre + hay + post, needle)
  {
    var i :| 0 <= i <= |hay| && OccursAt(hay, needle, i);
    assert i + |needle| <= |hay|;
    var big := pre + hay + post;
    assert big[|pre| + i..|pre| + i + |needle|] == hay[i..i + |needle|];
    assert OccursAt(big, needle, |pre| + i);
  }
}
