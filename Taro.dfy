/**
 * skills/taro.py: the tarot lesson plan, its two keyboards, the callback
 * strings that navigate between lessons, and the FSM state a lesson leaves.
 *
 * A keyboard is the list of its buttons with the row sizes passed to
 * `adjust`; the lesson text comes from the planner agent through an
 * `Endpoint`, and each handler returns what it would show instead of
 * calling Telegram.
 */
module Taro {
  import opened Wrappers
  import opened PyStr
  import opened Agents

  /** `TOPICS`: section key to the titles of its lessons, in order. */
  const Topics: map<string, seq<string>> := map[
    "intro" := [
      "История и суть карт Таро (Райдер-Уайт)",
      "Структура колоды: Старшие и Младшие арканы",
      "Базовая символика: цвета, позы, элементы",
      "Подготовка к гаданию: настройка и тасовка",
      "Как читать карты: интуиция против зубрежки"
    ],
    "minor" := [
      "Масть Жезлов: Огонь и Действие",
      "Масть Кубков: Вода и Чувства",
      "Масть Мечей: Воздух и Разум",
      "Масть Пентаклей: Земля и Ресурсы",
      "Придворные карты: Пажи, Рыцари, Королевы, Короли"
    ],
    "major" := [
      "Путь Шута: Арканы 0-5 (Становление)",
      "Социализация: Арканы 6-10 (Выбор и Судьба)",
      "Темная ночь души: Арканы 11-15 (Испытания)",
      "Просветление: Арканы 16-21 (Освобождение)"
    ],
    "practice" := [
      "Расклад 'Три карты': Прошлое, Настоящее, Будущее",
      "Расклад 'Выбор': Анализ двух вариантов",
      "Этика таролога: что можно и нельзя говорить"
    ]
  ]

  /** Every section has at least three lessons, and no section key contains '_'. */
  lemma TopicsWellFormed(key: string)
    requires key in Topics
    ensures |Topics[key]| >= 3 && '_' !in key
  {
  }

  // ---------------------------------------------------------------------
  // Keyboards

  datatype Button = Button(text: string, callback: string)

  /** A finished inline keyboard: its buttons in order and the row sizes given to `adjust`. */
  datatype Keyboard = Keyboard(buttons: seq<Button>, rows: seq<nat>)

  /** `InlineKeyboardBuilder`, reduced to the buttons added and the last `adjust`. */
  class KeyboardBuilder {
    var buttons: seq<Button>
    var rows: seq<nat>

    constructor ()
      ensures buttons == [] && rows == []
    {
      buttons, rows := [], [];
    }

    /** `builder.button(text=..., callback_data=...)`. */
    method AddButton(text: string, callback: string)
      modifies this
      ensures buttons == old(buttons) + [Button(text, callback)] && rows == old(rows)
    {
      buttons := buttons + [Button(text, callback)];
    }

    /** `builder.adjust(*sizes)`. */
    method Adjust(sizes: seq<nat>)
      modifies this
      ensures rows == sizes && buttons == old(buttons)
    {
      rows := sizes;
    }

    /** `builder.as_markup()`. */
    function AsMarkup(): Keyboard
      reads this
    {
      Keyboard(buttons, rows)
    }
  }

  // ---------------------------------------------------------------------
  // Main menu

  /** The section key `open_section` reads from a callback: the piece after the first '_'. */
  function TopicKey(data: string): string
    requires StartsWith(data, "topic_")
  {
    assert data == "topic" + "_" + data[6..];
    SplitAppend("topic", data[6..], '_');
    Split(data, '_')[1]
  }

  /** A "topic_<key>" callback names `key` when `key` has no '_'. */
  lemma TopicKeyOf(key: string)
    requires '_' !in key
    ensures StartsWith("topic_" + key, "topic_") && TopicKey("topic_" + key) == key
  {
    var data := "topic_" + key;
    assert data == "topic" + "_" + key;
    SplitAppend("topic", key, '_');
    SplitNoSeparator("topic", '_');
    SplitNoSeparator(key, '_');
  }

  /** The section keys, in the order the main menu lists them. */
  const SectionKeys: seq<string> := ["intro", "minor", "major", "practice"]

  /** The lesson plan has exactly the sections the main menu lists. */
  lemma TopicsKeys()
    ensures Topics.Keys == set k | k in SectionKeys
  {
  }

  /** The main-menu entries, `(text, callback)`, in the order they are added. */
  const MainMenuEntries: seq<(string, string)> := [
    ("👶 Введение", "topic_intro"),
    ("⚔️ Младшие Арканы", "topic_minor"),
    ("🌟 Старшие Арканы", "topic_major"),
    ("🃏 Практика", "topic_practice")
  ]

  /** `get_main_menu()`: one button per entry, two per row. */
  function MainMenu(): Keyboard {
    Keyboard(seq(|MainMenuEntries|, i requires 0 <= i < |MainMenuEntries| =>
      Button(MainMenuEntries[i].0, MainMenuEntries[i].1)), [2])
  }

  /**
   * The main menu has four buttons, two per row, and `open_section` reads
   * from the i-th button the i-th section key.
   */
  lemma MainMenuCallbacks()
    ensures |MainMenu().buttons| == 4 && MainMenu().rows == [2]
    ensures forall i :: 0 <= i < |MainMenu().buttons| ==>
              MainMenu().buttons[i].callback == "topic_" + SectionKeys[i] &&
              StartsWith(MainMenu().buttons[i].callback, "topic_") &&
              TopicKey(MainMenu().buttons[i].callback) == SectionKeys[i]
  {
    var buttons := MainMenu().buttons;
    forall i | 0 <= i < 4
      ensures buttons[i].callback == "topic_" + SectionKeys[i] && '_' !in SectionKeys[i]
    {
    }
    forall i | 0 <= i < 4
      ensures StartsWith(buttons[i].callback, "topic_") && TopicKey(buttons[i].callback) == SectionKeys[i]
    {
      TopicKeyOf(SectionKeys[i]);
    }
  }

  /**
   * Every main-menu button opens a section of the lesson plan, and every
   * section is opened by one of them.
   */
  lemma MainMenuSections()
    ensures forall i :: 0 <= i < |MainMenu().buttons| ==>
              StartsWith(MainMenu().buttons[i].callback, "topic_") && TopicKey(MainMenu().buttons[i].callback) in Topics
    ensures forall key :: key in Topics ==>
              exists i :: 0 <= i < |MainMenu().buttons| && MainMenu().buttons[i].callback == "topic_" + key
  {
    MainMenuCallbacks();
    TopicsKeys();
    forall key | key in Topics
      ensures exists i :: 0 <= i < |MainMenu().buttons| && MainMenu().buttons[i].callback == "topic_" + key
    {
      var i :| 0 <= i < 4 && SectionKeys[i] == key;
      assert MainMenu().buttons[i].callback == "topic_" + key;
    }
  }

  /** `get_main_menu()` as written: a builder filled by a loop over the entries. */
  method GetMainMenu() returns (kb: Keyboard)
    ensures kb == MainMenu()
  {
    var builder := new KeyboardBuilder();
    var expected := MainMenu().buttons;
    for i := 0 to |MainMenuEntries|
      invariant builder.buttons == expected[..i]
      invariant builder.rows == []
    {
      var (text, callback) := MainMenuEntries[i];
      builder.AddButton(text, callback);
      assert expected[..i + 1] == expected[..i] + [Button(text, callback)];
    }
    builder.Adjust([2]);
    kb := builder.AsMarkup();
  }

  // ---------------------------------------------------------------------
  // Lesson navigation

  const BackText: string := "⬅️ Назад"
  const ForwardText: string := "Вперед ➡️"
  const AskHintButton: Button := Button("❓ Задать вопрос", "ask_hint")
  const MenuButton: Button := Button("🔝 Меню", "taro_menu")

  /** The callback of a navigation button: "nav_<key>_<idx>". */
  function NavCallback(key: string, idx: int): string {
    "nav_" + key + "_" + IntToDecimal(idx)
  }

  function BackButton(key: string, idx: int): Button {
    Button(BackText, NavCallback(key, idx - 1))
  }

  function ForwardButton(key: string, idx: int): Button {
    Button(ForwardText, NavCallback(key, idx + 1))
  }

  /** The four captions of the lesson keyboard differ from each other. */
  lemma NavTextsDistinct()
    ensures BackText != ForwardText && BackText != AskHintButton.text && BackText != MenuButton.text
    ensures ForwardText != AskHintButton.text && ForwardText != MenuButton.text
  {
    assert BackText[0] == '⬅' && ForwardText[0] == 'В';
    assert AskHintButton.text[0] == '❓' && MenuButton.text[0] == '🔝';
  }

  /** Navigation callbacks start with "nav_"; the two fixed buttons' callbacks do not. */
  lemma NavPrefixes(key: string, idx: int)
    ensures StartsWith(NavCallback(key, idx), "nav_")
    ensures !StartsWith(AskHintButton.callback, "nav_") && !StartsWith(MenuButton.callback, "nav_")
  {
    assert NavCallback(key, idx)[..4] == "nav_";
    assert AskHintButton.callback[0] == 'a' && MenuButton.callback[0] == 't';
  }

  /** `get_nav_keyboard(key, idx, total)`. */
  function NavKeyboard(key: string, idx: int, total: int): Keyboard {
    var back := if idx > 0 then [BackButton(key, idx)] else [];
    var forward := if idx < total - 1 then [ForwardButton(key, idx)] else [];
    Keyboard(back + forward + [AskHintButton, MenuButton],
             if idx > 0 && idx < total - 1 then [2, 1, 1] else [1, 1, 1])
  }

  /**
   * The back button is there exactly when `idx > 0` and then comes first;
   * the forward button is there exactly when `idx < total - 1`;
   * "ask_hint" and "taro_menu" always close the keyboard, and every button
   * before them is one of the two navigation buttons. The first row holds
   * two buttons exactly when both navigation buttons are there.
   */
  lemma NavKeyboardShape(key: string, idx: int, total: int)
    ensures var kb := NavKeyboard(key, idx, total);
      (BackButton(key, idx) in kb.buttons <==> idx > 0) &&
      (ForwardButton(key, idx) in kb.buttons <==> idx < total - 1) &&
      (idx > 0 ==> kb.buttons[0] == BackButton(key, idx)) &&
      2 <= |kb.buttons| <= 4 &&
      kb.buttons[|kb.buttons| - 2..] == [AskHintButton, MenuButton] &&
      (forall i :: 0 <= i < |kb.buttons| - 2 ==>
         kb.buttons[i] == BackButton(key, idx) || kb.buttons[i] == ForwardButton(key, idx)) &&
      kb.rows == (if |kb.buttons| == 4 then [2, 1, 1] else [1, 1, 1]) &&
      kb.rows == (if idx > 0 && idx < total - 1 then [2, 1, 1] else [1, 1, 1]) &&
      |kb.buttons| == (if idx > 0 then 1 else 0) + (if idx < total - 1 then 1 else 0) + 2
  {
    NavTextsDistinct();
    NavKeyboardLayout(key, idx, total);
  }

  /** One button per navigation condition that holds, then the two fixed ones. */
  lemma NavKeyboardLayout(key: string, idx: int, total: int)
    ensures var kb := NavKeyboard(key, idx, total);
      |kb.buttons| == (if idx > 0 then 1 else 0) + (if idx < total - 1 then 1 else 0) + 2 &&
      kb.rows == (if idx > 0 && idx < total - 1 then [2, 1, 1] else [1, 1, 1])
  {
  }

  /** `get_nav_keyboard` as written: buttons added to a builder one by one. */
  method GetNavKeyboard(key: string, idx: int, total: int) returns (kb: Keyboard)
    ensures kb == NavKeyboard(key, idx, total)
  {
    var builder := new KeyboardBuilder();
    if idx > 0 {
      builder.AddButton(BackText, NavCallback(key, idx - 1));
    }
    if idx < total - 1 {
      builder.AddButton(ForwardText, NavCallback(key, idx + 1));
    }
    builder.AddButton(AskHintButton.text, AskHintButton.callback);
    builder.AddButton(MenuButton.text, MenuButton.callback);
    if idx > 0 && idx < total - 1 {
      builder.Adjust([2, 1, 1]);
    } else {
      builder.Adjust([1, 1, 1]);
    }
    kb := builder.AsMarkup();
  }

  /** The first lesson of a section offers only the way forward. */
  lemma FirstLessonKeyboard(key: string)
    requires key in Topics
    ensures NavKeyboard(key, 0, |Topics[key]|).buttons == [ForwardButton(key, 0), AskHintButton, MenuButton]
    ensures NavKeyboard(key, 0, |Topics[key]|).rows == [1, 1, 1]
  {
    TopicsWellFormed(key);
  }

  /** The last lesson of a section offers only the way back. */
  lemma LastLessonKeyboard(key: string)
    requires key in Topics
    ensures var last := |Topics[key]| - 1;
            NavKeyboard(key, last, |Topics[key]|).buttons == [BackButton(key, last), AskHintButton, MenuButton]
  {
    TopicsWellFormed(key);
  }

  /**
   * What `navigation` reads from a callback: the parts between the first
   * and the last '_' joined back with '_' as the key, and `int()` of the
   * last part as the index; `None` when `int()` raises.
   */
  function ParseNav(data: string): Option<(string, int)> {
    var parts := Split(data, '_');
    match ParseInt(parts[|parts| - 1])
    case None => None
    case Some(idx) => Some((Join('_', if |parts| >= 2 then parts[1..|parts| - 1] else []), idx))
  }

  /** Reading back a navigation callback gives the key and index it was built from. */
  lemma NavRoundTrip(key: string, idx: int)
    ensures ParseNav(NavCallback(key, idx)) == Some((key, idx))
  {
    var digits := IntToDecimal(idx);
    assert '_' !in digits by {
      if idx < 0 {
        assert digits[1..] == NatToDecimal(-idx);
        assert forall i :: 1 <= i < |digits| ==> IsDigit(digits[i]);
      }
    }
    var data := NavCallback(key, idx);
    assert data == "nav" + "_" + (key + "_" + digits);
    SplitAppend("nav", key + "_" + digits, '_');
    SplitAppend(key, digits, '_');
    SplitNoSeparator("nav", '_');
    SplitNoSeparator(digits, '_');
    var parts := Split(data, '_');
    assert parts == ["nav"] + Split(key, '_') + [digits];
    assert parts[1..|parts| - 1] == Split(key, '_');
    JoinSplit(key, '_');
    ParseIntRoundTrip(idx);
  }

  /**
   * A navigation button of the keyboard shown for lesson `idx` of a section
   * with `total` lessons leads to the same section and to a lesson index in
   * `[0, total)`.
   */
  lemma NavStepInBounds(key: string, idx: int, total: int, j: nat)
    requires 0 <= idx < total
    requires j < |NavKeyboard(key, idx, total).buttons|
    requires StartsWith(NavKeyboard(key, idx, total).buttons[j].callback, "nav_")
    ensures ParseNav(NavKeyboard(key, idx, total).buttons[j].callback).Some?
    ensures ParseNav(NavKeyboard(key, idx, total).buttons[j].callback).value.0 == key
    ensures 0 <= ParseNav(NavKeyboard(key, idx, total).buttons[j].callback).value.1 < total
  {
    var kb := NavKeyboard(key, idx, total);
    NavKeyboardShape(key, idx, total);
    NavPrefixes(key, idx);
    assert j < |kb.buttons| - 2;
    if kb.buttons[j] == BackButton(key, idx) {
      NavRoundTrip(key, idx - 1);
    } else {
      NavRoundTrip(key, idx + 1);
    }
  }

  /**
   * The last lesson shown after a sequence of button presses, starting at
   * lesson `idx` of section `key`. Each press picks a button of the
   * keyboard currently shown. A navigation button moves to the lesson its
   * callback names; the question button only shows an alert and leaves the
   * lesson on screen; the menu button ("taro_menu") replaces the lesson by
   * the main menu, so the presses after it are no longer on this keyboard
   * and the walk ends there.
   */
  function Follow(key: string, idx: int, presses: seq<nat>): (string, int)
    decreases |presses|
  {
    if presses == [] || key !in Topics then (key, idx)
    else
      var kb := NavKeyboard(key, idx, |Topics[key]|);
      var b := kb.buttons[presses[0] % |kb.buttons|];
      var next := if StartsWith(b.callback, "nav_") then ParseNav(b.callback) else None;
      if next.Some? then Follow(next.value.0, next.value.1, presses[1..])
      else if b.callback == MenuButton.callback then (key, idx)
      else Follow(key, idx, presses[1..])
  }

  /**
   * Starting from a lesson in range and pressing only keyboard buttons, the
   * section never changes and the lesson index stays in range, so the
   * lookup in `run_lesson` never fails and the header shows a position
   * between 1 and the number of lessons.
   */
  lemma {:induction false} FollowStaysInBounds(key: string, idx: int, presses: seq<nat>)
    requires key in Topics && 0 <= idx < |Topics[key]|
    ensures Follow(key, idx, presses).0 == key
    ensures 0 <= Follow(key, idx, presses).1 < |Topics[key]|
    decreases |presses|
  {
    if presses != [] {
      var kb := NavKeyboard(key, idx, |Topics[key]|);
      var b := kb.buttons[presses[0] % |kb.buttons|];
      if StartsWith(b.callback, "nav_") {
        NavStepInBounds(key, idx, |Topics[key]|, presses[0] % |kb.buttons|);
        var next := ParseNav(b.callback).value;
        FollowStaysInBounds(next.0, next.1, presses[1..]);
      } else if b.callback != MenuButton.callback {
        FollowStaysInBounds(key, idx, presses[1..]);
      }
    }
  }

  // ---------------------------------------------------------------------
  // Lessons and FSM state

  /** `TaroStates`; `menu` is declared in the source but never entered. */
  datatype TaroState = MenuState | LessonActive

  /** The per-user `FSMContext`: no state, or one of `TaroStates`. */
  class Fsm {
    var state: Option<TaroState>

    constructor ()
      ensures state == None
    {
      state := None;
    }

    /** `state.clear()`. */
    method Clear()
      modifies this
      ensures state == None
    {
      state := None;
    }

    /** `state.set_state(s)`. */
    method SetState(s: TaroState)
      modifies this
      ensures state == Some(s)
    {
      state := Some(s);
    }
  }

  /** `seq[i]` with Python's negative indices; `None` is the IndexError. */
  function PyIndex<T>(s: seq<T>, i: int): (r: Option<T>)
    ensures r.Some? <==> -|s| <= i < |s|
    ensures 0 <= i < |s| ==> r == Some(s[i])
    ensures -|s| <= i < 0 ==> r == Some(s[|s| + i])
  {
    if 0 <= i < |s| then Some(s[i])
    else if -|s| <= i < 0 then Some(s[|s| + i])
    else None
  }

  /** The fixed instructions that follow the topic line of a lesson prompt. */
  const LessonInstructions: string :=
    "1. Объясни суть кратко (до 250 слов).\n2. Приведи пример.\n3. Используй ТОЛЬКО безопасный Markdown: жирный шрифт (**текст**) и списки (- пункт).\n4. НЕ используй символы '_', '`', '[', ']' чтобы не ломать парсинг Telegram."

  /** The prompt `generate_lesson_content` sends for a topic. */
  function LessonPrompt(topic: string): string {
    "Ты учитель Таро. Тема урока: '" + topic + "'.\n" + LessonInstructions
  }

  /** The "generating" status shown while the lesson is produced. */
  function LessonStatus(topic: string): string {
    "⏳ <b>Генерирую урок:</b> " + topic + "...\nПодождите пару секунд."
  }

  /** The lesson message: title, position "idx+1/total", then the content. */
  function LessonText(topic: string, idx: int, total: int, content: string): string {
    "🎓 *Тема: " + topic + "* (" + IntToDecimal(idx + 1) + "/" + IntToDecimal(total) + ")\n\n" + content
  }

  /** Everything a shown lesson consists of. */
  datatype LessonView = LessonView(
    status: string,      // the first edit of the message
    lesson: Exchange,    // the planner call that produced the content
    saved: Message,      // the assistant message stored for the user
    text: string,        // the final edit of the message
    keyboard: Keyboard)  // its navigation keyboard

  /**
   * What a lesson handler did: nothing (unknown section), raised (a bad
   * index, or an unreadable index in `navigation`), or showed a lesson.
   */
  datatype LessonOutcome = NoSection | Raised | Shown(view: LessonView)

  /** The lesson `run_lesson` shows for `topic`, lesson `idx` of the `total` in section `key`. */
  function ViewOf(endpoint: Endpoint, key: string, idx: int, total: int, topic: string): LessonView {
    var lesson := PlannerProcess(endpoint, LessonPrompt(topic), []);
    LessonView(
      LessonStatus(topic),
      lesson,
      Message("assistant", "Урок '" + topic + "':\n" + lesson.reply),
      LessonText(topic, idx, total, lesson.reply),
      NavKeyboard(key, idx, total))
  }

  /**
   * `run_lesson(callback, key, idx, state)` over the lesson table `topics`
   * (`TOPICS`). A missing or empty section returns without showing
   * anything; an index outside Python's range for the section raises
   * before anything is shown; in both cases the state is left alone.
   * Otherwise the lesson at `idx` (counted from the end when negative) is
   * shown with its navigation keyboard, and the state becomes
   * `lesson_active`.
   */
  method RunLesson(fsm: Fsm, endpoint: Endpoint, topics: map<string, seq<string>>, key: string, idx: int)
    returns (r: LessonOutcome)
    modifies fsm
    ensures r.NoSection? <==> key !in topics || topics[key] == []
    ensures r.Raised? <==> key in topics && topics[key] != [] && !(-|topics[key]| <= idx < |topics[key]|)
    ensures !r.Shown? ==> fsm.state == old(fsm.state)
    ensures r.Shown? ==>
              fsm.state == Some(LessonActive) &&
              r.view == ViewOf(endpoint, key, idx, |topics[key]|, PyIndex(topics[key], idx).value)
  {
    if key !in topics || topics[key] == [] {
      return NoSection;
    }
    var lessons := topics[key];
    var current := PyIndex(lessons, idx);
    if current.None? {
      return Raised;
    }
    var topic := current.value;
    var lesson := PlannerProcess(endpoint, LessonPrompt(topic), []);
    var keyboard := GetNavKeyboard(key, idx, |lessons|);
    var view := LessonView(
      LessonStatus(topic),
      lesson,
      Message("assistant", "Урок '" + topic + "':\n" + lesson.reply),
      LessonText(topic, idx, |lessons|, lesson.reply),
      keyboard);
    fsm.SetState(LessonActive);
    r := Shown(view);
  }

  const MenuGreeting: string := "🔮 <b>AI-Школа Таро</b>\nЯ генерирую уроки персонально для вас.\nВыберите раздел:"
  const MenuReturn: string := "🔮 <b>AI-Школа Таро</b>\nВыберите раздел:"

  /** `/taro` (`start_taro`): clears the state and shows the main menu. */
  method StartTaro(fsm: Fsm) returns (text: string, kb: Keyboard)
    modifies fsm
    ensures fsm.state == None && text == MenuGreeting && kb == MainMenu()
  {
    fsm.Clear();
    kb := GetMainMenu();
    text := MenuGreeting;
  }

  /** The "taro_menu" button (`back_to_menu`): clears the state and shows the main menu again. */
  method BackToMenu(fsm: Fsm) returns (text: string, kb: Keyboard)
    modifies fsm
    ensures fsm.state == None && text == MenuReturn && kb == MainMenu()
  {
    fsm.Clear();
    kb := GetMainMenu();
    text := MenuReturn;
  }

  /**
   * A "topic_" button (`open_section`): the first lesson of the section it
   * names. The lookup of lesson 0 never raises, since no section is empty.
   */
  method OpenSection(fsm: Fsm, endpoint: Endpoint, data: string) returns (r: LessonOutcome)
    requires StartsWith(data, "topic_")
    modifies fsm
    ensures !r.Raised?
    ensures r.NoSection? <==> TopicKey(data) !in Topics
    ensures r.NoSection? ==> fsm.state == old(fsm.state)
    ensures r.Shown? ==>
              fsm.state == Some(LessonActive) &&
              r.view == ViewOf(endpoint, TopicKey(data), 0, |Topics[TopicKey(data)]|, Topics[TopicKey(data)][0])
  {
    var key := TopicKey(data);
    if key in Topics {
      TopicsWellFormed(key);
    }
    r := RunLesson(fsm, endpoint, Topics, key, 0);
  }

  /**
   * A "nav_" button (`navigation`): the lesson its callback names. An index
   * `int()` rejects and a lookup that raises both end in the error alert,
   * here `Raised`, with the state unchanged.
   */
  method Navigation(fsm: Fsm, endpoint: Endpoint, data: string) returns (r: LessonOutcome)
    requires StartsWith(data, "nav_")
    modifies fsm
    ensures ParseNav(data).None? ==> r.Raised?
    ensures ParseNav(data).Some? ==>
              var (key, idx) := ParseNav(data).value;
              (r.NoSection? <==> key !in Topics) &&
              (r.Raised? <==> key in Topics && !(-|Topics[key]| <= idx < |Topics[key]|)) &&
              (r.Shown? ==> fsm.state == Some(LessonActive) &&
                            r.view == ViewOf(endpoint, key, idx, |Topics[key]|, PyIndex(Topics[key], idx).value))
    ensures !r.Shown? ==> fsm.state == old(fsm.state)
  {
    var parsed := ParseNav(data);
    if parsed.None? {
      return Raised;
    }
    var (key, idx) := parsed.value;
    if key in Topics {
      TopicsWellFormed(key);
    }
    r := RunLesson(fsm, endpoint, Topics, key, idx);
  }
}
