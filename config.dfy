/** The `key,value` configuration files (`roles.txt`, `hooks.txt`): each line maps
    the text before its first comma to its second comma-separated field with the
    surrounding whitespace stripped; the dict comprehension lets a later line
    override an earlier one with the same key. */
module Config {
  import opened Outcome
  import opened Text

  /** `line.split(',')[0]`: everything before the first comma (the whole line when
      it has none). Not stripped: a leading space stays part of the key. */
  function KeyOf(line: string): (r: string)
    ensures |r| <= |line|
    ensures ',' !in line ==> r == line
  {
    match Find(line, ',')
    case None => line
    case Some(i) => line[..i]
  }

  /** The key is a comma-free prefix of the line, followed by the line's first
      comma when there is one. */
  lemma KeyOfSpec(line: string)
    ensures ',' !in KeyOf(line) && |KeyOf(line)| <= |line| && KeyOf(line) == line[..|KeyOf(line)|]
    ensures |KeyOf(line)| < |line| <==> ',' in line
    ensures |KeyOf(line)| < |line| ==> line[|KeyOf(line)|] == ','
  {
  }

  /** `line.split(',')[1]`: the text between the first and the second comma (or the
      end of the line); empty when the line has no comma. */
  function FieldOf(line: string): (r: string)
    ensures |r| <= |line|
    ensures ',' !in line ==> r == []
  {
    match Find(line, ',')
    case None => ""
    case Some(i) =>
      var rest := line[i + 1..];
      match Find(rest, ',')
      case None => rest
      case Some(j) => rest[..j]
  }

  /** The second field is comma-free, follows the key and its comma, and runs up
      to the next comma or the end of the line. */
  lemma FieldOfSpec(line: string)
    ensures ',' !in FieldOf(line)
    ensures ',' in line ==>
      var k := |KeyOf(line)|;
      k + 1 + |FieldOf(line)| <= |line| && FieldOf(line) == line[k + 1..][..|FieldOf(line)|]
    ensures ',' in line ==>
      var k := |KeyOf(line)|;
      k + 1 + |FieldOf(line)| == |line| || line[k + 1 + |FieldOf(line)|] == ','
  {
  }

  /** `line.split(',')[1].strip()`. */
  function ValueOf(line: string): (r: string)
    ensures |r| <= |line|
    ensures ',' !in line ==> r == []
  {
    Strip(FieldOf(line))
  }

  /** The value has no comma and no surrounding whitespace. */
  lemma ValueOfSpec(line: string)
    ensures ',' !in ValueOf(line)
    ensures ValueOf(line) == [] || (!IsSpace(ValueOf(line)[0]) && !IsSpace(ValueOf(line)[|ValueOf(line)| - 1]))
  {
    FieldOfSpec(line);
    StripSpec(FieldOf(line));
    StripKeepsAbsent(FieldOf(line), ',');
  }

  /** One line of a configuration file; a line without a comma has no second field,
      so indexing it raises IndexError. */
  function ParseLine(line: string): (r: Result<(string, string)>)
    ensures r.Ok? <==> HasComma(line)
    ensures r.Ok? ==> r.value == (KeyOf(line), ValueOf(line))
  {
    if HasComma(line) then Ok((KeyOf(line), ValueOf(line))) else Err(IndexError)
  }

  predicate HasComma(line: string)
  {
    ',' in line
  }

  /** The dict comprehension: entries folded left to right into a dictionary, a
      later entry overriding an earlier one with the same key; the first failing
      entry aborts the whole fold. */
  function Collect<K, V>(entries: seq<Result<(K, V)>>): (r: Result<map<K, V>>)
    ensures r.Ok? <==> forall i :: 0 <= i < |entries| ==> entries[i].Ok?
  {
    if entries == [] then Ok(map[])
    else
      var prev := Collect(entries[..|entries| - 1]);
      var last := entries[|entries| - 1];
      if prev.Err? then prev
      else if last.Err? then Err(last.error)
      else Ok(prev.value[last.value.0 := last.value.1])
  }

  /** The keys of the collected dictionary are exactly the entries' keys. */
  lemma {:induction false} CollectKeys<K, V>(entries: seq<Result<(K, V)>>, k: K)
    requires Collect(entries).Ok?
    ensures k in Collect(entries).value <==> exists i :: 0 <= i < |entries| && entries[i].value.0 == k
  {
    if entries != [] {
      var init := entries[..|entries| - 1];
      CollectKeys(init, k);
      if exists i :: 0 <= i < |entries| && entries[i].value.0 == k {
        var i :| 0 <= i < |entries| && entries[i].value.0 == k;
        if i < |entries| - 1 {
          assert init[i] == entries[i];
        }
      }
      if exists i :: 0 <= i < |init| && init[i].value.0 == k {
        var i :| 0 <= i < |init| && init[i].value.0 == k;
        assert entries[i] == init[i];
      }
    }
  }

  /** An entry whose key no later entry repeats determines that key's value. */
  lemma {:induction false} CollectLastWins<K, V>(entries: seq<Result<(K, V)>>, i: nat)
    requires Collect(entries).Ok?
    requires i < |entries|
    requires forall j :: i < j < |entries| ==> entries[j].value.0 != entries[i].value.0
    ensures entries[i].value.0 in Collect(entries).value
    ensures Collect(entries).value[entries[i].value.0] == entries[i].value.1
  {
    var n := |entries|;
    var init := entries[..n - 1];
    if i < n - 1 {
      assert init[i] == entries[i];
      forall j | i < j < |init| ensures init[j].value.0 != init[i].value.0 {
        assert init[j] == entries[j];
      }
      CollectLastWins(init, i);
    }
  }

  /** The entries of the comprehension, one per line. */
  function ConfigEntries(lines: seq<string>): (e: seq<Result<(string, string)>>)
    ensures |e| == |lines|
    ensures forall i :: 0 <= i < |lines| ==> e[i] == ParseLine(lines[i])
  {
    seq(|lines|, i requires 0 <= i < |lines| => ParseLine(lines[i]))
  }

  /** `{line.split(',')[0]: line.split(',')[1].strip() for line in f}`. */
  function ParseConfig(lines: seq<string>): (r: Result<map<string, string>>)
    ensures r.Ok? <==> forall i :: 0 <= i < |lines| ==> HasComma(lines[i])
  {
    var entries := ConfigEntries(lines);
    assert forall i :: 0 <= i < |lines| ==> (entries[i].Ok? <==> HasComma(lines[i]));
    Collect(entries)
  }

  /** The keys of the parsed dictionary are exactly the keys of the lines. */
  lemma ParseConfigKeys(lines: seq<string>, k: string)
    requires ParseConfig(lines).Ok?
    ensures k in ParseConfig(lines).value <==> exists i :: 0 <= i < |lines| && KeyOf(lines[i]) == k
  {
    var entries := ConfigEntries(lines);
    CollectKeys(entries, k);
    assert forall i :: 0 <= i < |lines| ==> entries[i].value.0 == KeyOf(lines[i]);
  }

  /** A line whose key no later line repeats determines that key's value: the last
      line with a given key wins. */
  lemma ParseConfigLastWins(lines: seq<string>, i: nat)
    requires ParseConfig(lines).Ok?
    requires i < |lines|
    requires forall j :: i < j < |lines| ==> KeyOf(lines[j]) != KeyOf(lines[i])
    ensures KeyOf(lines[i]) in ParseConfig(lines).value
    ensures ParseConfig(lines).value[KeyOf(lines[i])] == ValueOf(lines[i])
  {
    var entries := ConfigEntries(lines);
    assert entries[i].value == (KeyOf(lines[i]), ValueOf(lines[i]));
    forall j | i < j < |entries| ensures entries[j].value.0 != entries[i].value.0 {
      assert entries[j].value.0 == KeyOf(lines[j]);
    }
    CollectLastWins(entries, i);
  }

  /** A comma-free key, a comma, a comma-free field and anything starting with a
      comma split back into that key and that field. */
  lemma SplitRoundTrip(key: string, field: string, more: string)
    requires ',' !in key && ',' !in field
    requires more == [] || more[0] == ','
    ensures KeyOf(key + "," + field + more) == key
    ensures FieldOf(key + "," + field + more) == field
  {
    var line := key + "," + field + more;
    assert line[|key|] == ',';
    KeyOfSpec(line);
    assert KeyOf(line) == key;
    FieldOfSpec(line);
    var rest := line[|key| + 1..];
    assert rest == field + more;
    var f := FieldOf(line);
    assert f == rest[..|f|];
    if more != [] {
      assert rest[|field|] == ',';
    }
  }

  /** Writing a key (without commas) and a trimmed value (without commas) on a line,
      with any whitespace around the value and any further fields after it, reads
      back as that key and value. */
  lemma ParseLineRoundTrip(key: string, pad: string, value: string, trail: string, more: string)
    requires ',' !in key && ',' !in value
    requires value == [] || (!IsSpace(value[0]) && !IsSpace(value[|value| - 1]))
    requires forall k :: 0 <= k < |pad| ==> IsSpace(pad[k])
    requires forall k :: 0 <= k < |trail| ==> IsSpace(trail[k])
    requires value != [] || trail == []
    requires more == [] || more[0] == ','
    ensures ParseLine(key + "," + pad + value + trail + more) == Ok((key, value))
  {
    var field := pad + value + trail;
    assert forall c :: 0 <= c < |pad| ==> pad[c] != ',';
    assert forall c :: 0 <= c < |trail| ==> trail[c] != ',';
    assert ',' !in field;
    var line := key + "," + pad + value + trail + more;
    assert line == key + "," + field + more;
    SplitRoundTrip(key, field, more);
    StripPadded(pad, value, trail);
    assert HasComma(line) by { assert line[|key|] == ','; }
    assert ValueOf(line) == value;
  }
}
