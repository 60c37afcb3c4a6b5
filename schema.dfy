/**
 * The fixed wizard schema `FIELDS`, the publication targets, and the access
 * predicates of bot.py. The deployment constants (administrator id and the
 * three channel ids) are a `Config` value rather than globals.
 */
module Schema {
  import opened Wrappers

  /** One wizard step: the key under which the answer is stored, its title and an example. */
  datatype Field = Field(key: string, title: string, example: string)

  const Fields: seq<Field> := [
    Field("brand_model", "🚗 Марка и модель", "Kia Sportage"),
    Field("price", "💰 Стоимость (Brutto/Netto)", "31295 Brutto 26298 Netto"),
    Field("reg_date", "📅 Дата первичной регистрации", "01.2023"),
    Field("mileage", "📏 Пробег", "19.972 км."),
    Field("engine", "🛠 Объём двигателя", "1598см³"),
    Field("fuel", "⛽️ Вид топлива", "Бензин"),
    Field("gearbox", "⚙️ Коробка передач", "Автоматическая"),
    Field("hybrid", "🔋 Гибрид / Электро", "Да"),
    Field("inspection", "🛡 Технический осмотр", "Новый"),
    Field("owners", "👥 Колличество владельцев", "2"),
    Field("trim", "🧩 Комплектация", "Выше среднего"),
    Field("seller", "👤 Продавец", "Оф. дилер."),
    Field("callcheck", "📌 Прозвон / инфо от продавца (Да/Нет)", "Да"),
    Field("link", "🔗 Ссылка на объявление", "https://m.mobile.de/..."),
    Field("extra", "📝 Доп. комментарий (опционально)", "Напишите текст или '-' чтобы пропустить")
  ]

  const FieldCount: nat := 15
  const ExtraKey: string := "extra"
  const LinkKey: string := "link"

  /** `FIELDS[i][0]`. */
  function FieldKey(i: nat): string
    requires i < |Fields|
  {
    Fields[i].key
  }

  predicate IsFieldKey(k: string) {
    exists i :: 0 <= i < |Fields| && Fields[i].key == k
  }

  /** The schema has fifteen keys; the link is the 14th and the optional remark
      the last. */
  lemma SchemaShape()
    ensures |Fields| == FieldCount
    ensures FieldKey(13) == LinkKey && FieldKey(14) == ExtraKey
  {
  }

  /** No key occurs twice in the schema. */
  lemma FieldKeysDistinct(i: nat, j: nat)
    requires i < |Fields| && j < |Fields| && i != j
    ensures FieldKey(i) != FieldKey(j)
  {
  }

  /** `prompt_for(key)`: the title and example of the schema entry named `key`;
      `None` where the source's `next(...)` raises because no entry has that key. */
  function PromptFor(key: string): (r: Option<string>)
    ensures r.Some? <==> IsFieldKey(key)
  {
    PromptFrom(Fields, key)
  }

  function PromptFrom(fs: seq<Field>, key: string): (r: Option<string>)
    ensures r.Some? <==> exists i :: 0 <= i < |fs| && fs[i].key == key
  {
    if fs == [] then None
    else if fs[0].key == key then
      Some(if key == ExtraKey
           then fs[0].title + "\n— Можно добавить любые нюансы.\n— Если не нужно: отправьте -"
           else fs[0].title + "\nПример: " + fs[0].example)
    else
      var r := PromptFrom(fs[1..], key);
      assert forall i :: 1 <= i < |fs| ==> fs[i] == fs[1..][i - 1];
      r
  }

  /** The deployment constants `ADMIN_ID`, `CHAT_BY_ID`, `CHAT_DE_ID`, `CHAT_RU_ID`. */
  datatype Config = Config(adminId: int, chatBy: int, chatDe: int, chatRu: int)

  /** The values the repository ships with (all unset). */
  const SourceConfig: Config := Config(0, 0, 0, 0)

  /** A distribution channel: its flag and chat id. */
  datatype Target = Target(flag: string, chat: int)

  /** `targets()`. */
  function Targets(cfg: Config): seq<Target> {
    [Target("🇧🇾", cfg.chatBy), Target("🇩🇪", cfg.chatDe)]
      + (if cfg.chatRu != 0 then [Target("🇷🇺", cfg.chatRu)] else [])
  }

  /** The Belarusian and German channels always come first, in that order; the
      Russian one is appended exactly when its id is set. */
  lemma TargetsOrder(cfg: Config)
    ensures |Targets(cfg)| == (if cfg.chatRu != 0 then 3 else 2)
    ensures Targets(cfg)[0] == Target("🇧🇾", cfg.chatBy)
    ensures Targets(cfg)[1] == Target("🇩🇪", cfg.chatDe)
    ensures cfg.chatRu != 0 ==> Targets(cfg)[2] == Target("🇷🇺", cfg.chatRu)
    ensures (exists i :: 0 <= i < |Targets(cfg)| && Targets(cfg)[i].flag == "🇷🇺") <==> cfg.chatRu != 0
  {
    if cfg.chatRu != 0 {
      assert Targets(cfg)[2].flag == "🇷🇺";
    }
  }

  /** `is_admin_id(user_id)`. */
  predicate IsAdminId(cfg: Config, uid: int) {
    uid == cfg.adminId && cfg.adminId != 0
  }

  /** `has_access_user_id` / `has_access_cb`: the administrator, or a user whose
      (already lower-cased) username is non-empty and on the allow-list. */
  predicate HasAccess(cfg: Config, uid: int, username: string, allowed: set<string>) {
    IsAdminId(cfg, uid) || (username != "" && username in allowed)
  }

  /** With an unset `ADMIN_ID` nobody is the administrator, so access depends only
      on the allow-list; a user without a username is never let in then. */
  lemma UnsetAdminHasNoPrivilege(cfg: Config, uid: int, username: string, allowed: set<string>)
    requires cfg.adminId == 0
    ensures !IsAdminId(cfg, uid)
    ensures HasAccess(cfg, uid, username, allowed) <==> username != "" && username in allowed
  {
  }

  /** The administrator is always let in, whatever the allow-list holds. */
  lemma AdminAlwaysHasAccess(cfg: Config, username: string, allowed: set<string>)
    requires cfg.adminId != 0
    ensures HasAccess(cfg, cfg.adminId, username, allowed)
  {
  }
}
