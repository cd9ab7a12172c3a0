/**
  The two text commands that change the store: logging a transaction
  (`<type> <amount> <category>`) and creating a category (`<type> <name>`).
  Texts arrive lower-cased, as the handlers lower-case the message first.
*/
module Commands {
  import opened Wrappers
  import opened Text
  import opened Amounts
  import opened Ledger

  /** The type word of a command: "трата" for an expense, "доход" for an income. */
  function KindWord(k: CategoryType): string {
    if k == Expense then "трата" else "доход"
  }

  /** The lookup in `type_map`. */
  function KindOfWord(w: string): (r: Option<CategoryType>)
    ensures r.Some? <==> w == KindWord(Expense) || w == KindWord(Income)
    ensures r.Some? ==> w == KindWord(r.value)
  {
    if w == "трата" then Some(Expense) else if w == "доход" then Some(Income) else None
  }

  /** How a transaction command reads. */
  datatype TxnCommand = TooFewWords | BadAmount | BadKind | Record(kind: CategoryType, amount: int, category: string)

  /**
    Reads `<type> <amount> <category>`: at least three words (more are
    ignored); the amount is checked before the type word.
  */
  function ParseTransaction(text: string): (r: TxnCommand)
    ensures r == TooFewWords <==> |Words(text)| < 3
    ensures r == BadAmount <==> |Words(text)| >= 3 && ParseAmount(Words(text)[1]).None?
    ensures r == BadKind <==>
      |Words(text)| >= 3 && ParseAmount(Words(text)[1]).Some? && KindOfWord(Words(text)[0]).None?
    ensures r.Record? ==>
      && |Words(text)| >= 3 && Words(text)[0] == KindWord(r.kind)
      && ParseAmount(Words(text)[1]) == Some(r.amount)
      && r.category == Words(text)[2] && IsWord(r.category)
  {
    var parts := Words(text);
    if |parts| < 3 then TooFewWords
    else match ParseAmount(parts[1])
      case None => BadAmount
      case Some(amount) =>
        match KindOfWord(parts[0])
        case None => BadKind
        case Some(kind) => Record(kind, amount, parts[2])
  }

  /** How a category command reads. */
  datatype CategoryCommand = WrongWordCount | UnknownKind | NewCategory(kind: CategoryType, name: string)

  /** Reads `<type> <name>`: exactly two words. */
  function ParseCategory(text: string): (r: CategoryCommand)
    ensures r == WrongWordCount <==> |Words(text)| != 2
    ensures r == UnknownKind <==> |Words(text)| == 2 && KindOfWord(Words(text)[0]).None?
    ensures r.NewCategory? ==>
      |Words(text)| == 2 && Words(text)[0] == KindWord(r.kind) && r.name == Words(text)[1] && IsWord(r.name)
  {
    var parts := Words(text);
    if |parts| != 2 then WrongWordCount
    else match KindOfWord(parts[0])
      case None => UnknownKind
      case Some(kind) => NewCategory(kind, parts[1])
  }

  /**
    The words of a transaction command, joined by single spaces: a type word,
    an amount and a category name, with any further words ignored.
  */
  lemma ReadTransaction(ws: seq<string>, kind: CategoryType, amount: int)
    requires |ws| >= 3 && forall i :: 0 <= i < |ws| ==> IsWord(ws[i])
    requires ws[0] == KindWord(kind) && ParseAmount(ws[1]) == Some(amount)
    ensures ParseTransaction(Join(ws)) == Record(kind, amount, ws[2])
  {
    WordsOfJoin(ws);
  }

  /**
    Words joined by single spaces that do not make a transaction command:
    fewer than three words, then a second word that is no amount, then a
    first word that is no type word.
  */
  lemma RejectTransaction(ws: seq<string>)
    requires forall i :: 0 <= i < |ws| ==> IsWord(ws[i])
    ensures |ws| < 3 ==> ParseTransaction(Join(ws)) == TooFewWords
    ensures |ws| >= 3 && ParseAmount(ws[1]).None? ==> ParseTransaction(Join(ws)) == BadAmount
    ensures |ws| >= 3 && ParseAmount(ws[1]).Some? && KindOfWord(ws[0]).None? ==>
      ParseTransaction(Join(ws)) == BadKind
  {
    WordsOfJoin(ws);
  }

  /**
    Words joined by single spaces as a category command: exactly two words
    with a type word first make the command; anything else is refused.
  */
  lemma ReadCategory(ws: seq<string>)
    requires forall i :: 0 <= i < |ws| ==> IsWord(ws[i])
    ensures |ws| != 2 ==> ParseCategory(Join(ws)) == WrongWordCount
    ensures |ws| == 2 && KindOfWord(ws[0]).None? ==> ParseCategory(Join(ws)) == UnknownKind
    ensures |ws| == 2 && KindOfWord(ws[0]).Some? ==>
      ParseCategory(Join(ws)) == NewCategory(KindOfWord(ws[0]).value, ws[1])
  {
    WordsOfJoin(ws);
  }

  lemma KindWordIsWord(kind: CategoryType)
    ensures IsWord(KindWord(kind))
  {
  }

  lemma JoinThree(a: string, b: string, c: string)
    ensures Join([a, b, c]) == a + " " + b + " " + c
  {
    assert [a, b, c][1..] == [b, c];
    JoinTwo(b, c);
  }

  lemma JoinTwo(a: string, b: string)
    ensures Join([a, b]) == a + " " + b
  {
    assert [a, b][1..] == [b];
  }

  /** The canonical text of a transaction command reads back as that command. */
  lemma TransactionText(kind: CategoryType, amount: int, category: string)
    requires IsWord(category)
    ensures ParseTransaction(TransactionCommand(kind, amount, category)) == Record(kind, amount, category)
  {
    var ws := [KindWord(kind), AmountText(amount), category];
    KindWordIsWord(kind);
    ParseAmountText(amount);
    JoinThree(ws[0], ws[1], ws[2]);
    assert forall i :: 0 <= i < |ws| ==> IsWord(ws[i]) by {
      assert IsWord(ws[1]);
    }
    ReadTransaction(ws, kind, amount);
  }

  /** The canonical text of a category command reads back as that command. */
  lemma CategoryText(kind: CategoryType, name: string)
    requires IsWord(name)
    ensures ParseCategory(KindWord(kind) + " " + name) == NewCategory(kind, name)
  {
    var ws := [KindWord(kind), name];
    KindWordIsWord(kind);
    JoinTwo(ws[0], ws[1]);
    WordsOfJoin(ws);
  }

  function TransactionCommand(kind: CategoryType, amount: int, category: string): string {
    KindWord(kind) + " " + AmountText(amount) + " " + category
  }

  /** The stripped text is one of the two keyboard buttons. */
  predicate IsButton(text: string) {
    Strip(text) == "добавить трату" || Strip(text) == "добавить доход"
  }

  /** The reply to a message for the transaction handler. */
  datatype TxnReply = TxnNotRegistered | AskDetails(kind: CategoryType) | Invalid(why: TxnCommand)
                    | UnknownCategory(name: string) | Saved(txn: Txn)

  /**
    The transaction handler on a store: an unregistered sender is turned away;
    the two keyboard buttons ask for the command; a command that reads is saved,
    dated `now`, when the sender has a category of that name and type.
  */
  function HandleTransaction(store: Store, user: UserId, text: string, now: Moment): (r: (Store, TxnReply))
    ensures !r.1.Saved? ==> r.0 == store
    ensures r.1.Saved? ==>
      && r.0 == store.(transactions := store.transactions + [r.1.txn])
      && r.1.txn.owner == user && r.1.txn.when == now
      && Category(user, r.1.txn.category, r.1.txn.kind) in store.categories
    ensures Consistent(store) ==> Consistent(r.0)
    ensures user !in store.users ==> r == (store, TxnNotRegistered)
    ensures user in store.users && IsButton(text) ==>
      r == (store, AskDetails(if Strip(text) == "добавить трату" then Expense else Income))
    ensures user in store.users && !IsButton(text) && !ParseTransaction(text).Record? ==>
      r == (store, Invalid(ParseTransaction(text)))
    ensures user in store.users && !IsButton(text) && ParseTransaction(text).Record? ==>
      var command := ParseTransaction(text);
      && (Category(user, command.category, command.kind) in store.categories <==>
            r.1 == Saved(Txn(user, command.category, command.kind, command.amount, now)))
      && (Category(user, command.category, command.kind) !in store.categories ==>
            r == (store, UnknownCategory(command.category)))
  {
    if user !in store.users then (store, TxnNotRegistered)
    else if Strip(text) == "добавить трату" then (store, AskDetails(Expense))
    else if Strip(text) == "добавить доход" then (store, AskDetails(Income))
    else match ParseTransaction(text)
      case Record(kind, amount, name) =>
        if Category(user, name, kind) in store.categories then
          var txn := Txn(user, name, kind, amount, now);
          (store.(transactions := store.transactions + [txn]), Saved(txn))
        else (store, UnknownCategory(name))
      case other => (store, Invalid(other))
  }

  /** The reply to a message for the category handler. */
  datatype CategoryReply = CategoryNotRegistered | Malformed(why: CategoryCommand)
                         | AlreadyExists(name: string) | Added(category: Category)

  /** The category handler on a store: a new (name, type) pair of the sender is added once. */
  function HandleNewCategory(store: Store, user: UserId, text: string): (r: (Store, CategoryReply))
    ensures !r.1.Added? ==> r.0 == store
    ensures r.1.Added? ==>
      && r.1.category.owner == user && r.1.category !in store.categories
      && r.0 == store.(categories := store.categories + {r.1.category})
    ensures r.1.AlreadyExists? ==>
      var command := ParseCategory(text);
      command.NewCategory? && r.1.name == command.name && Category(user, command.name, command.kind) in store.categories
    ensures r.1.Added? <==>
      user in store.users && ParseCategory(text).NewCategory?
      && Category(user, ParseCategory(text).name, ParseCategory(text).kind) !in store.categories
    ensures r.1.Added? ==> r.1.category == Category(user, ParseCategory(text).name, ParseCategory(text).kind)
    ensures user !in store.users ==> r == (store, CategoryNotRegistered)
    ensures user in store.users && !ParseCategory(text).NewCategory? ==> r == (store, Malformed(ParseCategory(text)))
  {
    if user !in store.users then (store, CategoryNotRegistered)
    else match ParseCategory(text)
      case NewCategory(kind, name) =>
        var category := Category(user, name, kind);
        if category in store.categories then (store, AlreadyExists(name))
        else (store.(categories := store.categories + {category}), Added(category))
      case other => (store, Malformed(other))
  }

  /** Sending the same category command twice adds the category once. */
  lemma AddCategoryOnce(store: Store, user: UserId, text: string)
    requires HandleNewCategory(store, user, text).1.Added? || HandleNewCategory(store, user, text).1.AlreadyExists?
    ensures var once := HandleNewCategory(store, user, text).0;
      HandleNewCategory(once, user, text) == (once, AlreadyExists(ParseCategory(text).name))
  {
  }

  lemma StripUnchanged(s: string)
    requires s != [] && !IsSpace(s[0]) && !IsSpace(s[|s| - 1])
    ensures Strip(s) == s
  {
  }

  /** A transaction command is not mistaken for one of the keyboard buttons. */
  lemma CommandIsNotButton(kind: CategoryType, amount: int, name: string)
    requires IsWord(name)
    ensures Strip(TransactionCommand(kind, amount, name)) == TransactionCommand(kind, amount, name)
    ensures TransactionCommand(kind, amount, name) != "добавить трату"
    ensures TransactionCommand(kind, amount, name) != "добавить доход"
  {
    var text := TransactionCommand(kind, amount, name);
    CommandEnds(kind, amount, name);
    StripUnchanged(text);
    NotAButton(text, kind);
  }

  lemma NotAButton(text: string, kind: CategoryType)
    requires |text| > 5 && text[0] == KindWord(kind)[0] && text[2] == KindWord(kind)[2]
    ensures text != "добавить трату" && text != "добавить доход"
  {
    if kind == Income {
      assert text[2] != "добавить трату"[2];
    } else {
      assert text[0] != "добавить трату"[0];
    }
  }

  lemma CommandEnds(kind: CategoryType, amount: int, name: string)
    requires name != []
    ensures var text := TransactionCommand(kind, amount, name);
      |text| > 5 && text[0] == KindWord(kind)[0] && text[2] == KindWord(kind)[2] && text[|text| - 1] == name[|name| - 1]
  {
  }

  /**
    Once a category exists, a transaction command naming it is saved: the
    not-found reply is only for categories the sender has not created.
  */
  lemma CategoryThenTransaction(store: Store, user: UserId, kind: CategoryType, name: string, amount: int, now: Moment)
    requires user in store.users && IsWord(name)
    requires HandleNewCategory(store, user, KindWord(kind) + " " + name).1.Added?
    ensures var added := HandleNewCategory(store, user, KindWord(kind) + " " + name).0;
      HandleTransaction(added, user, TransactionCommand(kind, amount, name), now)
        == (added.(transactions := added.transactions + [Txn(user, name, kind, amount, now)]), Saved(Txn(user, name, kind, amount, now)))
  {
    CategoryText(kind, name);
    var added := HandleNewCategory(store, user, KindWord(kind) + " " + name).0;
    assert Category(user, name, kind) in added.categories && user in added.users;
    TransactionText(kind, amount, name);
    CommandIsNotButton(kind, amount, name);
  }
}
