/**
 * The JSON texts the reference serializer writes: flat objects whose members all
 * have string values, and comma-separated lists of such objects.  Beside the writer,
 * a reader for exactly these shapes, so that what a text says can be stated as what
 * it reads back as.  Member values are kept as the text between their quotes.
 */
module FlatJson {
  import opened Wrappers

  /** One member `"key":"text"`. */
  function Member(key: string, text: string): (r: string)
  {
    "\"" + key + "\":\"" + text + "\""
  }

  /** The parts separated by single commas, each comma added after the part before it. */
  function Join(parts: seq<string>): (r: string)
  {
    if |parts| == 0 then ""
    else if |parts| == 1 then parts[0]
    else Join(parts[..|parts| - 1]) + "," + parts[|parts| - 1]
  }

  /** The text of each member, in order. */
  function MemberTexts(members: seq<(string, string)>): (texts: seq<string>)
  {
    seq(|members|, i requires 0 <= i < |members| => Member(members[i].0, members[i].1))
  }

  /** A flat JSON object with the given members, in order. */
  function Object(members: seq<(string, string)>): (r: string)
  {
    "{" + Join(MemberTexts(members)) + "}"
  }

  /** A key or value text that needs no escaping and cannot close an object. */
  predicate Plain(t: string)
  {
    '"' !in t && '}' !in t
  }

  predicate PlainMembers(members: seq<(string, string)>)
  {
    forall i :: 0 <= i < |members| ==> Plain(members[i].0) && Plain(members[i].1)
  }

  // ---------------------------------------------------------------------------
  // Reading back

  /** The text before the first `c`, and the text after that `c`. */
  function UntilChar(c: char, s: string): (r: Option<(string, string)>)
    ensures r.Some? ==> |r.value.1| < |s|
  {
    if s == [] then None
    else if s[0] == c then Some(([], s[1..]))
    else match UntilChar(c, s[1..])
      case None => None
      case Some((before, after)) => Some(([s[0]] + before, after))
  }

  /** One member `"key":"text"` at the start of `s`, and the text after it. */
  function ParseMember(s: string): (r: Option<((string, string), string)>)
    ensures r.Some? ==> |r.value.1| < |s|
  {
    if |s| == 0 || s[0] != '"' then None
    else match UntilChar('"', s[1..])
      case None => None
      case Some((key, rest)) =>
        if |rest| < 2 || rest[0] != ':' || rest[1] != '"' then None
        else match UntilChar('"', rest[2..])
          case None => None
          case Some((text, after)) => Some(((key, text), after))
  }

  /** One or more members separated by commas, filling all of `s`. */
  function ParseMembers(s: string): (r: Option<seq<(string, string)>>)
    decreases |s|
  {
    match ParseMember(s)
    case None => None
    case Some((member, rest)) =>
      if rest == [] then Some([member])
      else if rest[0] != ',' then None
      else match ParseMembers(rest[1..])
        case None => None
        case Some(members) => Some([member] + members)
  }

  /** A flat object, as `Object` writes it. */
  function ParseObject(s: string): (r: Option<seq<(string, string)>>)
  {
    if |s| < 2 || s[0] != '{' || s[|s| - 1] != '}' then None
    else if |s| == 2 then Some([])
    else ParseMembers(s[1..|s| - 1])
  }

  /** An object text with no closing brace inside, as every `Object` of plain members is. */
  predicate FlatObject(t: string)
  {
    |t| >= 2 && t[0] == '{' && t[|t| - 1] == '}' && '}' !in t[1..|t| - 1]
  }

  /** One or more flat objects separated by commas, filling all of `s`. */
  function SplitObjects(s: string): (r: Option<seq<string>>)
    decreases |s|
  {
    if |s| == 0 || s[0] != '{' then None
    else match UntilChar('}', s[1..])
      case None => None
      case Some((body, rest)) =>
        var first := "{" + body + "}";
        if rest == [] then Some([first])
        else if rest[0] != ',' then None
        else match SplitObjects(rest[1..])
          case None => None
          case Some(objects) => Some([first] + objects)
  }

  // ---------------------------------------------------------------------------
  // Round trips

  lemma {:induction false} UntilCharSplits(c: char, before: string, after: string)
    requires c !in before
    ensures UntilChar(c, before + [c] + after) == Some((before, after))
  {
    var s := before + [c] + after;
    if before != [] {
      assert s[1..] == before[1..] + [c] + after;
      UntilCharSplits(c, before[1..], after);
      assert [before[0]] + before[1..] == before;
    } else {
      assert s == [c] + after;
    }
  }

  lemma ParseMemberSplits(key: string, text: string, tail: string)
    requires Plain(key) && Plain(text)
    ensures ParseMember(Member(key, text) + tail) == Some(((key, text), tail))
  {
    var rest := ":\"" + text + "\"" + tail;
    var s := Member(key, text) + tail;
    assert s == "\"" + (key + "\"" + rest);
    assert s[1..] == key + "\"" + rest;
    UntilCharSplits('"', key, rest);
    assert rest[2..] == text + "\"" + tail;
    UntilCharSplits('"', text, tail);
  }

  /** `Join` read from the left: the first part, a comma, and the join of the others. */
  lemma {:induction false} JoinCons(first: string, parts: seq<string>)
    requires |parts| > 0
    ensures Join([first] + parts) == first + "," + Join(parts)
    decreases |parts|
  {
    var all := [first] + parts;
    var n := |parts| - 1;
    if n > 0 {
      var init := parts[..n];
      assert all[..|all| - 1] == [first] + init;
      JoinCons(first, init);
      assert Join(all) == Join([first] + init) + "," + parts[n];
      assert Join(parts) == Join(init) + "," + parts[n];
    } else {
      assert all[..1] == [first];
    }
  }

  /** The join of one part more: a comma and the new part after the join so far. */
  lemma JoinSnoc(parts: seq<string>, last: string)
    ensures Join(parts + [last]) == if parts == [] then last else Join(parts) + "," + last
  {
    assert (parts + [last])[..|parts|] == parts;
  }

  lemma {:induction false} ParseMembersJoin(members: seq<(string, string)>)
    requires |members| > 0 && PlainMembers(members)
    ensures ParseMembers(Join(MemberTexts(members))) == Some(members)
    decreases |members|
  {
    var key, text := members[0].0, members[0].1;
    if |members| == 1 {
      ParseMembersJoinOne(members);
    } else {
      var others := members[1..];
      ParseMembersJoin(others);
      ParseMembersJoinCons(key, text, others);
      assert [(key, text)] + others == members;
    }
  }

  lemma ParseMembersJoinOne(members: seq<(string, string)>)
    requires |members| == 1 && PlainMembers(members)
    ensures ParseMembers(Join(MemberTexts(members))) == Some(members)
  {
    ParseMembersLast(members[0].0, members[0].1);
    assert members == [(members[0].0, members[0].1)];
  }

  lemma ParseMembersJoinCons(key: string, text: string, others: seq<(string, string)>)
    requires Plain(key) && Plain(text) && |others| > 0
    requires ParseMembers(Join(MemberTexts(others))) == Some(others)
    ensures ParseMembers(Join(MemberTexts([(key, text)] + others))) == Some([(key, text)] + others)
  {
    JoinMembersCons(key, text, others);
    ParseMembersNext(key, text, Join(MemberTexts(others)), others);
  }

  lemma JoinMembersCons(key: string, text: string, others: seq<(string, string)>)
    requires |others| > 0
    ensures Join(MemberTexts([(key, text)] + others)) == Member(key, text) + "," + Join(MemberTexts(others))
  {
    var rest := MemberTexts(others);
    assert MemberTexts([(key, text)] + others) == [Member(key, text)] + rest;
    JoinCons(Member(key, text), rest);
  }

  lemma ParseMembersLast(key: string, text: string)
    requires Plain(key) && Plain(text)
    ensures ParseMembers(Member(key, text)) == Some([(key, text)])
  {
    ParseMemberSplits(key, text, []);
    assert Member(key, text) + [] == Member(key, text);
  }

  lemma ParseMembersNext(key: string, text: string, rest: string, others: seq<(string, string)>)
    requires Plain(key) && Plain(text)
    requires ParseMembers(rest) == Some(others)
    ensures ParseMembers(Member(key, text) + "," + rest) == Some([(key, text)] + others)
  {
    var tail := "," + rest;
    ParseMemberSplits(key, text, tail);
    assert tail[1..] == rest;
    assert Member(key, text) + "," + rest == Member(key, text) + tail;
  }

  lemma {:induction false} JoinNonEmpty(parts: seq<string>)
    requires |parts| > 0 && |parts[0]| > 0
    ensures |Join(parts)| > 0
  {
    if |parts| > 1 {
      JoinNonEmpty(parts[..|parts| - 1]);
    }
  }

  /** Reading an object back gives exactly its members, in order. */
  lemma ParseObjectInverts(members: seq<(string, string)>)
    requires PlainMembers(members)
    ensures ParseObject(Object(members)) == Some(members)
  {
    var body := Join(MemberTexts(members));
    var s := Object(members);
    assert s[1..|s| - 1] == body;
    if members == [] {
      assert s == "{}";
    } else {
      ParseMembersJoin(members);
      assert |Member(members[0].0, members[0].1)| > 0;
      JoinNonEmpty(MemberTexts(members));
    }
  }

  /** A character in none of the parts, other than the comma, is not in their join. */
  lemma {:induction false} JoinAvoids(c: char, parts: seq<string>)
    requires c != ','
    requires forall i :: 0 <= i < |parts| ==> c !in parts[i]
    ensures c !in Join(parts)
    decreases |parts|
  {
    if |parts| > 1 {
      JoinAvoids(c, parts[..|parts| - 1]);
    }
  }

  /** Every object of plain members is flat. */
  lemma ObjectIsFlat(members: seq<(string, string)>)
    requires PlainMembers(members)
    ensures FlatObject(Object(members))
  {
    var texts := MemberTexts(members);
    JoinAvoids('}', texts);
    var s := Object(members);
    assert s[1..|s| - 1] == Join(texts);
  }

  lemma SplitObjectsFirst(t: string, tail: string)
    requires FlatObject(t)
    ensures SplitObjects(t + tail) ==
      if tail == [] then Some([t])
      else if tail[0] != ',' then None
      else match SplitObjects(tail[1..])
        case None => None
        case Some(objects) => Some([t] + objects)
  {
    var body := t[1..|t| - 1];
    assert t == "{" + body + "}";
    assert (t + tail)[1..] == body + "}" + tail;
    UntilCharSplits('}', body, tail);
  }

  /** A comma-separated list of flat objects splits back into exactly those objects. */
  lemma {:induction false} SplitObjectsJoin(objects: seq<string>)
    requires |objects| > 0
    requires forall i :: 0 <= i < |objects| ==> FlatObject(objects[i])
    ensures SplitObjects(Join(objects)) == Some(objects)
    decreases |objects|
  {
    if |objects| == 1 {
      SplitObjectsFirst(objects[0], []);
      assert objects[0] + [] == objects[0];
      assert objects == [objects[0]];
    } else {
      var others := objects[1..];
      SplitObjectsJoin(others);
      assert [objects[0]] + others == objects;
      JoinCons(objects[0], others);
      SplitObjectsNext(objects[0], Join(others), others);
    }
  }

  lemma SplitObjectsNext(first: string, rest: string, others: seq<string>)
    requires FlatObject(first)
    requires SplitObjects(rest) == Some(others)
    ensures SplitObjects(first + "," + rest) == Some([first] + others)
  {
    var tail := "," + rest;
    SplitObjectsFirst(first, tail);
    assert tail[1..] == rest;
    assert first + "," + rest == first + tail;
  }

  // ---------------------------------------------------------------------------
  // Objects of one to four members, written out

  lemma Object1(m1: (string, string))
    ensures Object([m1]) == "{" + Member(m1.0, m1.1) + "}"
  {
    assert MemberTexts([m1]) == [Member(m1.0, m1.1)];
  }

  lemma Object2(m1: (string, string), m2: (string, string))
    ensures Object([m1, m2]) == "{" + (Member(m1.0, m1.1) + "," + Member(m2.0, m2.1)) + "}"
  {
    var t1, t2 := Member(m1.0, m1.1), Member(m2.0, m2.1);
    assert MemberTexts([m1, m2]) == [t1, t2];
    JoinSnoc([t1], t2);
    assert [t1] + [t2] == [t1, t2];
  }

  lemma Object3(m1: (string, string), m2: (string, string), m3: (string, string))
    ensures Object([m1, m2, m3]) ==
      "{" + (Member(m1.0, m1.1) + "," + Member(m2.0, m2.1) + "," + Member(m3.0, m3.1)) + "}"
  {
    var t1, t2, t3 := Member(m1.0, m1.1), Member(m2.0, m2.1), Member(m3.0, m3.1);
    assert MemberTexts([m1, m2, m3]) == [t1, t2, t3];
    JoinSnoc([t1], t2);
    JoinSnoc([t1, t2], t3);
    assert [t1] + [t2] == [t1, t2] && [t1, t2] + [t3] == [t1, t2, t3];
  }

  lemma Object4(m1: (string, string), m2: (string, string), m3: (string, string), m4: (string, string))
    ensures Object([m1, m2, m3, m4]) ==
      "{" + (Member(m1.0, m1.1) + "," + Member(m2.0, m2.1) + "," + Member(m3.0, m3.1) + "," + Member(m4.0, m4.1)) + "}"
  {
    var t1, t2, t3, t4 := Member(m1.0, m1.1), Member(m2.0, m2.1), Member(m3.0, m3.1), Member(m4.0, m4.1);
    assert MemberTexts([m1, m2, m3, m4]) == [t1, t2, t3, t4];
    JoinSnoc([t1], t2);
    JoinSnoc([t1, t2], t3);
    JoinSnoc([t1, t2, t3], t4);
    assert [t1] + [t2] == [t1, t2] && [t1, t2] + [t3] == [t1, t2, t3] && [t1, t2, t3] + [t4] == [t1, t2, t3, t4];
  }
}
