/**
  The lead-source enrichment module: reads the UTM parameters of the page's
  query string into a `leadSource` object. The query string is a parameter
  here; `None` stands for a runtime where `window` is falsy.
 */
module LeadSources {
  import opened Js

  /** The five recognised query parameters, compared by whole-name equality. */
  const UtmFields: seq<string> := ["utm_source", "utm_medium", "utm_campaign", "utm_term", "utm_content"]

  /** The prefix removed from a recognised name to form the key. */
  const Prefix: string := "utm_"

  /** The keys a `leadSource` object may hold. */
  const ShortNames: set<string> := {"source", "medium", "campaign", "term", "content"}

  /** Every recognised name is the prefix followed by one of the short names. */
  lemma UtmFieldsArePrefixed(name: string)
    ensures name in UtmFields <==> |name| >= |Prefix| && name[..|Prefix|] == Prefix && name[|Prefix|..] in ShortNames
  {
    if |name| >= |Prefix| && name[..|Prefix|] == Prefix && name[|Prefix|..] in ShortNames {
      var k := name[|Prefix|..];
      assert name == Prefix + k;
      assert k == "source" || k == "medium" || k == "campaign" || k == "term" || k == "content";
      assert Prefix + "source" == UtmFields[0];
      assert Prefix + "medium" == UtmFields[1];
      assert Prefix + "campaign" == UtmFields[2];
      assert Prefix + "term" == UtmFields[3];
      assert Prefix + "content" == UtmFields[4];
    }
  }

  /** The key of a recognised name, and back. */
  lemma ShortNameOf(k: string)
    ensures (Prefix + k)[..|Prefix|] == Prefix && (Prefix + k)[|Prefix|..] == k
    ensures Prefix + k in UtmFields <==> k in ShortNames
  {
    UtmFieldsArePrefixed(Prefix + k);
  }

  /**
    The index of the first `c` in `s`, or `|s|` when there is none
    (the position `String.prototype.replace` with a one-character pattern acts on).
   */
  function FirstIndex(s: string, c: char): (i: nat)
    ensures i <= |s|
    ensures i < |s| ==> s[i] == c
    ensures forall j :: 0 <= j < i ==> s[j] != c
  {
    if s == [] then 0
    else if s[0] == c then 0
    else 1 + FirstIndex(s[1..], c)
  }

  /** `s.replace(c, '')`: the first occurrence of `c`, if any, is deleted and nothing else changes. */
  function RemoveFirst(s: string, c: char): (r: string)
    ensures c !in s ==> r == s
    ensures c in s ==> |r| == |s| - 1
    ensures c in s ==> exists i :: 0 <= i < |s| && s[i] == c && c !in s[..i] && r == s[..i] + s[i + 1..]
  {
    var i := FirstIndex(s, c);
    if i < |s| then
      assert c !in s[..i];
      s[..i] + s[i + 1..]
    else
      s
  }

  /** `s.split(sep)`: the maximal pieces between separators, always at least one. */
  function Split(s: string, sep: char): (parts: seq<string>)
    ensures |parts| >= 1
    ensures forall k :: 0 <= k < |parts| ==> sep !in parts[k]
  {
    if s == [] then [[]]
    else
      var rest := Split(s[1..], sep);
      if s[0] == sep then [[]] + rest
      else [[s[0]] + rest[0]] + rest[1..]
  }

  /** `parts.join(sep)`, the partner of `Split`. */
  function Join(parts: seq<string>, sep: char): (s: string)
    requires |parts| >= 1
  {
    if |parts| == 1 then parts[0]
    else parts[0] + [sep] + Join(parts[1..], sep)
  }

  /** Joining the pieces of a split gives back the input. */
  lemma {:induction false} JoinSplit(s: string, sep: char)
    ensures Join(Split(s, sep), sep) == s
  {
    if s != [] {
      JoinSplit(s[1..], sep);
      var rest := Split(s[1..], sep);
      if s[0] == sep {
        assert Split(s, sep)[1..] == rest;
      } else {
        var parts := Split(s, sep);
        if |rest| == 1 {
          assert parts == [[s[0]] + rest[0]];
        } else {
          assert parts[1..] == rest[1..];
          assert Join(rest, sep) == rest[0] + [sep] + Join(rest[1..], sep);
        }
      }
    }
  }

  /** Splitting a join of separator-free pieces gives back the pieces. */
  lemma {:induction false} SplitJoin(parts: seq<string>, sep: char)
    requires |parts| >= 1
    requires forall k :: 0 <= k < |parts| ==> sep !in parts[k]
    ensures Split(Join(parts, sep), sep) == parts
  {
    if |parts| == 1 {
      SplitNoSeparator(parts[0], sep);
    } else {
      SplitJoin(parts[1..], sep);
      SplitAfterPiece(parts[0], Join(parts[1..], sep), sep);
    }
  }

  /** A separator-free string splits into itself. */
  lemma {:induction false} SplitNoSeparator(s: string, sep: char)
    requires sep !in s
    ensures Split(s, sep) == [s]
  {
    if s != [] {
      assert sep !in s[1..];
      SplitNoSeparator(s[1..], sep);
      assert [s[0]] + s[1..] == s;
    }
  }

  /** A separator-free piece followed by a separator is the first piece of the split. */
  lemma {:induction false} SplitAfterPiece(piece: string, tail: string, sep: char)
    requires sep !in piece
    ensures Split(piece + [sep] + tail, sep) == [piece] + Split(tail, sep)
  {
    if piece == [] {
      assert piece + [sep] + tail == [sep] + tail;
      assert ([sep] + tail)[1..] == tail;
    } else {
      var s := piece + [sep] + tail;
      assert s[1..] == piece[1..] + [sep] + tail;
      SplitAfterPiece(piece[1..], tail, sep);
      assert [piece[0]] + piece[1..] == piece;
    }
  }

  /** The name of a `name=value` field: the text before the first `=`. */
  function FieldName(field: string): (name: string)
    ensures '=' !in name
  {
    Split(field, '=')[0]
  }

  /** A field without `=` is its own name (and its value is null, by `FieldValueShape`). */
  lemma BareFieldName(field: string)
    requires '=' !in field
    ensures FieldName(field) == field
  {
    SplitNoSeparator(field, '=');
  }

  /** A field's name is a prefix of the field. */
  lemma FieldNameIsPrefix(field: string)
    ensures FieldName(field) <= field
  {
    JoinSplit(field, '=');
    SplitFirstIsPrefix(Split(field, '='), '=');
  }

  /** The first piece of a list is a prefix of its join. */
  lemma SplitFirstIsPrefix(parts: seq<string>, sep: char)
    requires |parts| >= 1
    ensures parts[0] <= Join(parts, sep)
  {
  }

  /**
    The value of a field: the text between the first and the second `=`, or
    null when the field has no `=` (the destructuring default). No URL decoding.
   */
  function FieldValue(field: string): Value {
    var parts := Split(field, '=');
    if |parts| >= 2 then Str(parts[1]) else Null
  }

  /**
    A field's value is null exactly when it has no `=`; otherwise the field is
    its name, `=`, the value, and then either nothing or more text starting with `=`.
   */
  lemma FieldValueShape(field: string)
    ensures FieldValue(field) == Null <==> '=' !in field
    ensures '=' in field ==>
      && FieldValue(field).Str?
      && var name, v := FieldName(field), FieldValue(field).s;
      && var end := |name| + 1 + |v|;
      && '=' !in v
      && end <= |field|
      && field[..end] == name + "=" + v
      && (end == |field| || field[end] == '=')
  {
    var parts := Split(field, '=');
    JoinSplit(field, '=');
    if |parts| == 1 {
      assert field == parts[0];
    } else {
      var v := parts[1];
      var rest := if |parts| == 2 then [] else ['='] + Join(parts[2..], '=');
      if |parts| == 2 {
        assert Join(parts[1..], '=') == v + rest;
      } else {
        assert parts[1..][1..] == parts[2..];
        assert Join(parts[1..], '=') == v + rest;
      }
      assert field == parts[0] + "=" + v + rest;
      assert field[|parts[0]|] == '=';
      assert field[..|parts[0]| + 1 + |v|] == parts[0] + "=" + v;
    }
  }

  /**
    The key under which a field name is stored: a name that is exactly one of
    `UtmFields` loses its prefix; any other name is filtered out.
   */
  function UtmKey(name: string): Option<string> {
    if name in UtmFields then Some(name[|Prefix|..]) else None
  }

  /** The filter is whole-name and case-sensitive, and the keys are exactly the short names. */
  lemma UtmKeySpec(name: string, k: string)
    ensures UtmKey(name) == Some(k) <==> k in ShortNames && name == Prefix + k
  {
    UtmFieldsArePrefixed(name);
    ShortNameOf(k);
    if name in UtmFields {
      assert name == Prefix + name[|Prefix|..];
    }
  }

  /**
    The `leadSource` object for the `&`-separated fields: the `filter` keeps the
    fields whose name has a `UtmKey` and the `reduce` stores each under that key,
    so a later field overwrites an earlier one.
   */
  function Collect(fields: seq<string>): Object {
    if fields == [] then map[]
    else
      var m := Collect(fields[..|fields| - 1]);
      var field := fields[|fields| - 1];
      match UtmKey(FieldName(field))
      case Some(key) => m[key := FieldValue(field)]
      case None => m
  }

  /** The field carries the recognised name whose key is `k`. */
  predicate Names(field: string, k: string) {
    UtmKey(FieldName(field)) == Some(k)
  }

  /** No field after the `i`th carries the name whose key is `k`. */
  predicate LastNaming(fields: seq<string>, i: nat, k: string) {
    forall j :: i < j < |fields| ==> !Names(fields[j], k)
  }

  /** Every key of the result is one of the five short names. */
  lemma {:induction false} CollectKeysAreShort(fields: seq<string>)
    ensures forall k :: k in Collect(fields) ==> k in ShortNames
  {
    if fields != [] {
      CollectKeysAreShort(fields[..|fields| - 1]);
      var name := FieldName(fields[|fields| - 1]);
      if UtmKey(name).Some? {
        UtmKeySpec(name, UtmKey(name).value);
      }
    }
  }

  /** A key is present exactly when some field carries its recognised name. */
  lemma {:induction false} CollectKeys(fields: seq<string>, k: string)
    ensures k in Collect(fields) <==> exists i :: 0 <= i < |fields| && Names(fields[i], k)
  {
    if fields != [] {
      var n := |fields| - 1;
      var init := fields[..n];
      CollectKeys(init, k);
      if k in Collect(fields) && !Names(fields[n], k) {
        var i :| 0 <= i < n && Names(init[i], k);
        assert fields[i] == init[i];
      }
      if k !in Collect(fields) {
        forall i | 0 <= i < |fields| ensures !Names(fields[i], k) {
          if i < n {
            assert init[i] == fields[i];
          }
        }
      }
    }
  }

  /** A present key holds the value of the last field that carries its recognised name. */
  lemma {:induction false} CollectLastWins(fields: seq<string>, i: nat, k: string)
    requires i < |fields| && Names(fields[i], k) && LastNaming(fields, i, k)
    ensures k in Collect(fields) && Collect(fields)[k] == FieldValue(fields[i])
  {
    var n := |fields| - 1;
    if i < n {
      var init := fields[..n];
      assert init[i] == fields[i];
      assert LastNaming(init, i, k) by {
        forall j | i < j < |init| ensures !Names(init[j], k) {
          assert init[j] == fields[j];
        }
      }
      CollectLastWins(init, i, k);
    }
  }

  /**
    `leadSources()`: with a window, the first `?` of the search string is removed,
    the rest split on `&` and collected; without one, `leadSource` stays null.
   */
  function LeadSourcesOf(search: Option<string>): (r: Value)
    ensures r.Obj? && r.props.Keys == {"leadSource"}
    ensures search.None? <==> r.props["leadSource"] == Null
    ensures search.Some? ==>
      r.props["leadSource"] == Obj(Collect(Split(RemoveFirst(search.value, '?'), '&')))
  {
    match search
    case None => Obj(map["leadSource" := Null])
    case Some(s) => Obj(map["leadSource" := Obj(Collect(Split(RemoveFirst(s, '?'), '&')))])
  }

  /** With a window and a query that has no recognised field, `leadSource` is `{}`. */
  lemma IrrelevantQuery(s: string)
    requires forall f :: f in Split(RemoveFirst(s, '?'), '&') ==> FieldName(f) !in UtmFields
    ensures LeadSourcesOf(Some(s)) == Obj(map["leadSource" := Obj(map[])])
  {
    var fields := Split(RemoveFirst(s, '?'), '&');
    forall k ensures k !in Collect(fields) {
      CollectKeys(fields, k);
      forall i | 0 <= i < |fields| ensures !Names(fields[i], k) {
        assert fields[i] in fields;
      }
    }
    assert Collect(fields) == map[];
  }

  /** The empty query (and a bare `?`) yields `{}`. */
  lemma EmptyQuery()
    ensures LeadSourcesOf(Some("")) == Obj(map["leadSource" := Obj(map[])])
    ensures LeadSourcesOf(Some("?")) == Obj(map["leadSource" := Obj(map[])])
  {
    assert RemoveFirst("?", '?') == "";
    assert Split("", '&') == [""];
    assert FieldName("") == "";
    IrrelevantQuery("");
    IrrelevantQuery("?");
  }
}
