/** The command-line flag holding a namespaced name: a parser (`Set`) and its printer (`String`). */
module NamespacedNameFlag {
  import opened Names
  import opened Wrappers

  /** Splits at the first slash; without a slash the whole value is the name. */
  function Parse(value: string): (r: Option<NamespacedName>)
    ensures r.None? <==> value == ""
  {
    var slash := IndexOf(value, '/');
    if value == "" then None
    else if slash == |value| then Some(NamespacedName("", value))
    else Some(NamespacedName(value[..slash], value[slash + 1..]))
  }

  class Flag {
    var value: NamespacedName

    constructor ()
      ensures value == NamespacedName("", "")
    {
      value := NamespacedName("", "");
    }

    function String(): string
      reads this
    {
      value.String()
    }

    /** Refuses the empty string and then leaves the flag as it was. */
    method Set(text: string) returns (ok: bool)
      modifies this
      ensures ok <==> text != ""
      ensures ok ==> Some(value) == Parse(text)
      ensures !ok ==> value == old(value)
    {
      if text == "" {
        return false;
      }
      var i := 0;
      while i < |text| && text[i] != '/'
        invariant 0 <= i <= |text|
        invariant '/' !in text[..i]
      {
        i := i + 1;
      }
      if i < |text| {
        assert text == text[..i] + ['/'] + text[i + 1..];
        IndexAfterPrefix(text[..i], text[i + 1..], '/');
        value := NamespacedName(text[..i], text[i + 1..]);
      } else {
        assert text[..i] == text;
        value := NamespacedName("", text);
      }
      return true;
    }
  }

  /** Parsing undoes printing exactly for names whose namespace holds no slash. */
  lemma ParseUndoesString(n: NamespacedName)
    ensures Parse(n.String()) == Some(n) <==> '/' !in n.namespace
  {
    var s := n.String();
    if '/' !in n.namespace {
      IndexAfterPrefix(n.namespace, n.name, '/');
      assert s == n.namespace + ['/'] + n.name;
      assert s[..|n.namespace|] == n.namespace && s[|n.namespace| + 1..] == n.name;
    } else {
      assert s[|n.namespace|] == '/';
      assert s[..|s|] == s;
    }
  }

  /** Printing undoes parsing exactly for values with a slash: a bare name comes back with a leading slash. */
  lemma StringUndoesParse(value: string)
    requires value != ""
    ensures Parse(value).value.String() == value <==> '/' in value
  {
    var slash := IndexOf(value, '/');
    if slash == |value| {
      assert value[..slash] == value;
      assert |Parse(value).value.String()| == |value| + 1;
    } else {
      assert value == value[..slash] + "/" + value[slash + 1..];
    }
  }
}
