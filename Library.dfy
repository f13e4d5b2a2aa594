/** The droid's speech library (pi/Audio/Library.py): the fixed bank of
    words, each tagged with emotions, and `get_words`, which filters the bank
    by one of three matching rules. The bank is shared by every library
    object, and `get_words` rewrites each word's path and sets the chosen
    words' audio interface in place. `os.path.join` is the parameter `join`;
    audio interfaces are opaque handles. */
module Library {
  import opened Py

  /** `SpeechLibrary.Emotions`. */
  datatype Emotion = Neutral | Happy | Screaming | Scared | Confused

  /** `SpeechLibrary.EmotionFilters`. */
  datatype EmotionFilter = Including | Exclusive | AtLeastOne

  /** An element of a request: an Emotions member or any other object. */
  datatype Item = Emo(e: Emotion) | NotAnEmotion

  /** A Python argument used as a collection: a list, a set, another
      iterable (which `list()` turns into its elements in order), or an
      object that cannot be iterated. */
  datatype Collection<T> = ListOf(items: seq<T>) | SetOf(elems: set<T>) | OtherIterable(items: seq<T>) | NotIterable

  /** A word's `interface` attribute: never set, or set to None or to an
      audio interface. */
  datatype InterfaceAttr = Unset | Assigned(handle: Option<nat>)

  class Word {
    var filePath: string
    const emotions: seq<Emotion>
    var interface: InterfaceAttr

    constructor Init(filePath: string, emotions: seq<Emotion>, interface: Option<nat>)
      ensures this.filePath == filePath && this.emotions == emotions
      ensures this.interface == (if interface.Some? then Assigned(interface) else Unset)
    {
      this.filePath := filePath;
      this.emotions := emotions;
      this.interface := if interface.Some? then Assigned(interface) else Unset;
    }

    /** `Word(file_path, emotions, interface)`: the emotions must be given as
        a list (TypeError otherwise); the interface attribute is only set
        when an interface is given. */
    static method New(filePath: string, emotions: Collection<Emotion>, interface: Option<nat>)
      returns (r: Result<Word>)
      ensures r.Ok? <==> emotions.ListOf?
      ensures r.Err? ==> r.error == TypeError
      ensures r.Ok? ==>
        fresh(r.value) && r.value.filePath == filePath && r.value.emotions == emotions.items &&
        r.value.interface == (if interface.Some? then Assigned(interface) else Unset)
    {
      if !emotions.ListOf? {
        return Err(TypeError);
      }
      var w := new Word.Init(filePath, emotions.items, interface);
      r := Ok(w);
    }
  }

  /** One entry of the `WORDS` literal: the file name joined under AUDIO_DIR
      and the emotions list. */
  datatype WordEntry = WordEntry(fileName: string, emotions: seq<Emotion>)

  const AudioDir := "audio"

  /** The `WORDS` literal, in order. "34.wav" occurs twice. */
  const WordTable: seq<WordEntry> := [
    WordEntry("01.wav", [Neutral]),
    WordEntry("02.wav", [Neutral]),
    WordEntry("03.wav", [Confused]),
    WordEntry("04.wav", [Neutral]),
    WordEntry("05.wav", [Happy]),
    WordEntry("06.wav", [Happy]),
    WordEntry("07.wav", [Scared]),
    WordEntry("08.wav", [Happy, Confused]),
    WordEntry("09.wav", [Happy]),
    WordEntry("10.wav", [Neutral]),
    WordEntry("11.wav", [Neutral]),
    WordEntry("12.wav", [Neutral]),
    WordEntry("13.wav", [Neutral]),
    WordEntry("14.wav", [Confused]),
    WordEntry("15.wav", [Happy]),
    WordEntry("16.wav", [Neutral]),
    WordEntry("17.wav", [Happy]),
    WordEntry("18.wav", [Happy, Confused]),
    WordEntry("19.wav", [Confused]),
    WordEntry("20.wav", [Scared]),
    WordEntry("21.wav", [Happy]),
    WordEntry("22.wav", [Screaming]),
    WordEntry("23.wav", [Neutral]),
    WordEntry("24.wav", [Neutral]),
    WordEntry("25.wav", [Neutral]),
    WordEntry("26.wav", [Confused]),
    WordEntry("27.wav", [Confused]),
    WordEntry("28.wav", [Neutral]),
    WordEntry("29.wav", [Confused]),
    WordEntry("30.wav", [Confused]),
    WordEntry("31.wav", [Confused]),
    WordEntry("32.wav", [Happy]),
    WordEntry("33.wav", [Happy]),
    WordEntry("34.wav", [Happy]),
    WordEntry("34.wav", [Happy, Confused]),
    WordEntry("35.wav", [Happy]),
    WordEntry("36.wav", [Happy]),
    WordEntry("37.wav", [Happy]),
    WordEntry("38.wav", [Happy]),
    WordEntry("39.wav", [Confused]),
    WordEntry("40.wav", [Confused]),
    WordEntry("41.wav", [Happy]),
    WordEntry("42.wav", [Happy]),
    WordEntry("43.wav", [Happy]),
    WordEntry("44.wav", [Scared]),
    WordEntry("45.wav", [Screaming]),
    WordEntry("46.wav", [Screaming]),
    WordEntry("47.wav", [Screaming]),
    WordEntry("48.wav", [Confused])
  ]

  /** No word object occurs twice. */
  predicate Distinct(ws: seq<Word>)
  {
    forall i, j :: 0 <= i < j < |ws| ==> ws[i] != ws[j]
  }

  /** The class-level `WORDS` list, built once and shared by every library. */
  class WordBank {
    const words: seq<Word>

    /** Evaluates the `WORDS` literal, entry by entry. Every entry passes a
        list, so Word's type check passes. */
    constructor (join: (string, string) -> string)
      ensures |words| == |WordTable| && Distinct(words)
      ensures forall i :: 0 <= i < |words| ==>
        fresh(words[i]) &&
        words[i].filePath == join(AudioDir, WordTable[i].fileName) &&
        words[i].emotions == WordTable[i].emotions &&
        words[i].interface == Unset
    {
      var acc: seq<Word> := [];
      var i := 0;
      while i < |WordTable|
        invariant 0 <= i <= |WordTable| && |acc| == i && Distinct(acc)
        invariant forall k :: 0 <= k < i ==>
          fresh(acc[k]) &&
          acc[k].filePath == join(AudioDir, WordTable[k].fileName) &&
          acc[k].emotions == WordTable[k].emotions &&
          acc[k].interface == Unset
      {
        var w := new Word.Init(join(AudioDir, WordTable[i].fileName), WordTable[i].emotions, None);
        acc := acc + [w];
        i := i + 1;
      }
      words := acc;
    }
  }

  /** A request after the argument checks: a list (kept in order) or a set. */
  datatype Request = ListRequest(items: seq<Emotion>) | SetRequest(elems: set<Emotion>)

  function RequestElems(req: Request): set<Emotion>
  {
    match req
    case ListRequest(items) => set e | e in items
    case SetRequest(elems) => elems
  }

  /** INCLUDING: every requested emotion is among the word's emotions. */
  predicate IncludingMatch(wordEmotions: seq<Emotion>, req: Request)
  {
    forall e :: e in RequestElems(req) ==> e in wordEmotions
  }

  /** EXCLUSIVE: `emotions == word.emotions`, list equality, which a set
      request never satisfies. */
  predicate ExclusiveMatch(wordEmotions: seq<Emotion>, req: Request)
  {
    req.ListRequest? && req.items == wordEmotions
  }

  /** AT_LEAST_ONE: some requested emotion is among the word's emotions. */
  predicate AtLeastOneMatch(wordEmotions: seq<Emotion>, req: Request)
  {
    exists e :: e in RequestElems(req) && e in wordEmotions
  }

  predicate Matches(wordEmotions: seq<Emotion>, req: Request, filter: EmotionFilter)
  {
    match filter
    case Including => IncludingMatch(wordEmotions, req)
    case Exclusive => ExclusiveMatch(wordEmotions, req)
    case AtLeastOne => AtLeastOneMatch(wordEmotions, req)
  }

  /** The words of `ws` that match, in order: exactly the matching words of
      `ws`, and nothing else. */
  function Selected(ws: seq<Word>, req: Request, filter: EmotionFilter): (r: seq<Word>)
    ensures forall x :: x in r ==> x in ws && Matches(x.emotions, req, filter)
    ensures forall i :: 0 <= i < |ws| && Matches(ws[i].emotions, req, filter) ==> ws[i] in r
    ensures |r| <= |ws|
  {
    if ws == [] then []
    else
      var last := ws[|ws| - 1];
      Selected(ws[..|ws| - 1], req, filter) + (if Matches(last.emotions, req, filter) then [last] else [])
  }

  /** `a` is `b` with some elements left out, order kept. */
  predicate SubsequenceOf<T(==)>(a: seq<T>, b: seq<T>)
  {
    if a == [] then true
    else if b == [] then false
    else (a[|a| - 1] == b[|b| - 1] && SubsequenceOf(a[..|a| - 1], b[..|b| - 1])) || SubsequenceOf(a, b[..|b| - 1])
  }

  /** The selection keeps the bank's order. */
  lemma {:induction false} SelectedKeepsOrder(ws: seq<Word>, req: Request, filter: EmotionFilter)
    ensures SubsequenceOf(Selected(ws, req, filter), ws)
  {
    if ws != [] {
      var init, last := ws[..|ws| - 1], ws[|ws| - 1];
      SelectedKeepsOrder(init, req, filter);
      var s := Selected(init, req, filter);
      assert ws[..|ws| - 1] == init;
      if Matches(last.emotions, req, filter) {
        var t := s + [last];
        assert Selected(ws, req, filter) == t;
        assert t[..|t| - 1] == s && t[|t| - 1] == last;
        SubsequenceExtend(s, init, last);
      } else {
        assert Selected(ws, req, filter) == s;
        SubsequenceDrop(s, init, last);
      }
    }
  }

  lemma SubsequenceExtend<T>(a: seq<T>, b: seq<T>, x: T)
    requires SubsequenceOf(a, b)
    ensures SubsequenceOf(a + [x], b + [x])
  {
    var a', b' := a + [x], b + [x];
    assert a'[..|a'| - 1] == a && b'[..|b'| - 1] == b;
  }

  lemma SubsequenceDrop<T>(a: seq<T>, b: seq<T>, x: T)
    requires SubsequenceOf(a, b)
    ensures SubsequenceOf(a, b + [x])
  {
    var b' := b + [x];
    assert b'[..|b'| - 1] == b;
  }

  /** From a bank of distinct words, the selection holds each word once. */
  lemma {:induction false} SelectedIsDistinct(ws: seq<Word>, req: Request, filter: EmotionFilter)
    requires Distinct(ws)
    ensures Distinct(Selected(ws, req, filter))
  {
    if ws != [] {
      var init, last := ws[..|ws| - 1], ws[|ws| - 1];
      assert Distinct(init);
      SelectedIsDistinct(init, req, filter);
      var s := Selected(init, req, filter);
      assert last !in init;
      assert last !in s;
    }
  }

  /** For a non-empty request, INCLUDING selects a subset of what AT_LEAST_ONE
      selects; EXCLUSIVE selects nothing for a set request. */
  lemma FilterRelations(ws: seq<Word>, req: Request)
    requires RequestElems(req) != {}
    ensures forall x :: x in Selected(ws, req, Including) ==> x in Selected(ws, req, AtLeastOne)
    ensures req.SetRequest? ==> Selected(ws, req, Exclusive) == []
  {
    forall x | x in Selected(ws, req, Including)
      ensures x in Selected(ws, req, AtLeastOne)
    {
      var e :| e in RequestElems(req);
      assert e in x.emotions;
      var i :| 0 <= i < |ws| && ws[i] == x;
    }
  }

  /** EXCLUSIVE compares lists, so the order of the request matters: word
      "08.wav" is [HAPPY, CONFUSED] and is not matched by [CONFUSED, HAPPY]. */
  lemma ExclusiveIsOrderSensitive()
    ensures WordTable[7].emotions == [Happy, Confused]
    ensures ExclusiveMatch(WordTable[7].emotions, ListRequest([Happy, Confused]))
    ensures !ExclusiveMatch(WordTable[7].emotions, ListRequest([Confused, Happy]))
    ensures IncludingMatch(WordTable[7].emotions, ListRequest([Confused, Happy]))
  {
    assert RequestElems(ListRequest([Confused, Happy])) == {Confused, Happy};
  }

  /** The number of elements a checked argument holds. */
  function Size(c: Collection<Item>): nat
  {
    match c
    case ListOf(items) => |items|
    case SetOf(elems) => |elems|
    case OtherIterable(items) => |items|
    case NotIterable => 0
  }

  predicate AllEmotions(c: Collection<Item>)
  {
    match c
    case ListOf(items) => forall i :: 0 <= i < |items| ==> items[i].Emo?
    case SetOf(elems) => forall x :: x in elems ==> x.Emo?
    case OtherIterable(items) => forall i :: 0 <= i < |items| ==> items[i].Emo?
    case NotIterable => false
  }

  /** The request an argument of emotions stands for; a non-list iterable is
      its list of elements. */
  function ToRequest(c: Collection<Item>): (req: Request)
    requires AllEmotions(c)
    ensures c.SetOf? <==> req.SetRequest?
    ensures forall x :: x in RequestElems(req) <==> Emo(x) in Elements(c)
    // a list, or any other iterable, keeps its order and multiplicity
    ensures !c.SetOf? ==>
      req.ListRequest? && |req.items| == |c.items| &&
      forall i :: 0 <= i < |c.items| ==> c.items[i] == Emo(req.items[i])
  {
    match c
    case ListOf(items) => ListRequest(EmotionsOf(items))
    case OtherIterable(items) => ListRequest(EmotionsOf(items))
    case SetOf(elems) => SetRequest(set x | x in elems :: x.e)
  }

  /** The emotions of a sequence of Emotions members, in order. */
  function EmotionsOf(items: seq<Item>): (r: seq<Emotion>)
    requires forall i :: 0 <= i < |items| ==> items[i].Emo?
    ensures |r| == |items| && forall i :: 0 <= i < |items| ==> items[i] == Emo(r[i])
    ensures forall x :: x in r <==> Emo(x) in items
  {
    if items == [] then [] else [items[0].e] + EmotionsOf(items[1..])
  }

  function Elements(c: Collection<Item>): set<Item>
  {
    match c
    case ListOf(items) => set x | x in items
    case SetOf(elems) => elems
    case OtherIterable(items) => set x | x in items
    case NotIterable => {}
  }

  class SpeechLibrary {
    const parentPath: string
    const bank: WordBank

    /** `SpeechLibrary(parent_path)`, over the shared bank. */
    constructor (parentPath: string, bank: WordBank)
      ensures this.parentPath == parentPath && this.bank == bank
    {
      this.parentPath := parentPath;
      this.bank := bank;
    }

    /** `get_words(emotions, filtering_method, interface)`.
        - a non-iterable argument raises TypeError;
        - an empty request returns the shared bank itself;
        - an element that is not an Emotions member raises TypeError;
        - otherwise every word of the bank gets its path joined under the
          library's parent path, the matching words get the interface, and
          the matching words are returned in bank order.
        Nothing changes on the first three paths. */
    method GetWords(emotions: Collection<Item>, filter: EmotionFilter, interface: Option<nat>,
                    join: (string, string) -> string)
      returns (r: Result<seq<Word>>)
      requires Distinct(bank.words)
      modifies bank.words
      ensures emotions.NotIterable? ==> r == Err(TypeError)
      ensures !emotions.NotIterable? && Size(emotions) == 0 ==> r == Ok(bank.words)
      ensures !emotions.NotIterable? && Size(emotions) > 0 && !AllEmotions(emotions) ==> r == Err(TypeError)
      ensures r.Err? || Size(emotions) == 0 ==>
        forall i :: 0 <= i < |bank.words| ==>
          bank.words[i].filePath == old(bank.words[i].filePath) && bank.words[i].interface == old(bank.words[i].interface)
      ensures Size(emotions) > 0 && AllEmotions(emotions) ==>
        var req := ToRequest(emotions);
        r == Ok(Selected(bank.words, req, filter)) &&
        forall i :: 0 <= i < |bank.words| ==>
          bank.words[i].filePath == join(parentPath, old(bank.words[i].filePath)) &&
          bank.words[i].interface ==
            (if Matches(bank.words[i].emotions, req, filter) then Assigned(interface) else old(bank.words[i].interface))
    {
      if emotions.NotIterable? {
        return Err(TypeError);
      }
      if Size(emotions) == 0 {
        return Ok(bank.words);
      }
      if !AllEmotions(emotions) {
        return Err(TypeError);
      }
      var req := ToRequest(emotions);
      var matching := Annotate(bank.words, parentPath, req, filter, interface, join);
      r := Ok(matching);
    }
  }

  /** The loop of `get_words`: every word's path is joined under
      `parentPath`, and each matching word gets the interface and is
      collected, in order. */
  method Annotate(ws: seq<Word>, parentPath: string, req: Request, filter: EmotionFilter,
                  interface: Option<nat>, join: (string, string) -> string)
    returns (matching: seq<Word>)
    requires Distinct(ws)
    modifies ws
    ensures matching == Selected(ws, req, filter)
    ensures forall k :: 0 <= k < |ws| ==>
      ws[k].filePath == join(parentPath, old(ws[k].filePath)) &&
      ws[k].interface == (if Matches(ws[k].emotions, req, filter) then Assigned(interface) else old(ws[k].interface))
  {
    matching := [];
    var i := 0;
    while i < |ws|
      invariant 0 <= i <= |ws|
      invariant matching == Selected(ws[..i], req, filter)
      invariant forall k :: 0 <= k < i ==>
        ws[k].filePath == join(parentPath, old(ws[k].filePath)) &&
        ws[k].interface == (if Matches(ws[k].emotions, req, filter) then Assigned(interface) else old(ws[k].interface))
      invariant forall k :: i <= k < |ws| ==> ws[k].filePath == old(ws[k].filePath) && ws[k].interface == old(ws[k].interface)
    {
      var word := ws[i];
      var hit := Matches(word.emotions, req, filter);
      assert forall k :: 0 <= k < |ws| && k != i ==> ws[k] != word;
      word.filePath := join(parentPath, word.filePath);
      if hit {
        matching := matching + [word];
        word.interface := Assigned(interface);
      }
      assert ws[..i + 1][..i] == ws[..i];
      i := i + 1;
    }
    assert ws[..|ws|] == ws;
  }

  /** The bank holds 49 words, so a query with no emotions returns a
      non-empty list; "34.wav" is listed twice, the second time also as
      CONFUSED. */
  lemma BankIsPopulated()
    ensures |WordTable| == 49
    ensures WordTable[33] == WordEntry("34.wav", [Happy]) && WordTable[34] == WordEntry("34.wav", [Happy, Confused])
  {
  }
}
