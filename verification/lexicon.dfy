/**
 * The fixed word lists of the dog-information extractor (src/lib/dogInfoExtractor.ts),
 * in declaration order, and the alternatives of its categorical regular expressions.
 * Order matters wherever the first hit wins.
 */
module Lexicon {

  /** Breed names, large dogs first; note that '雪纳瑞' is listed twice. */
  const DogBreeds: seq<string> := [
    "金毛", "拉布拉多", "拉拉", "哈士奇", "萨摩耶", "萨摩", "阿拉斯加",
    "德牧", "德国牧羊犬", "边牧", "边境牧羊犬", "秋田", "柴犬", "松狮",
    "柯基", "比格", "雪纳瑞", "法斗", "法国斗牛犬", "英斗", "英国斗牛犬",
    "可卡", "巴哥", "沙皮",
    "泰迪", "贵宾", "比熊", "博美", "吉娃娃", "约克夏", "马尔济斯",
    "西施", "京巴", "蝴蝶犬", "小鹿犬", "雪纳瑞"
  ]

  /** Trigger verbs saying the dog is already owned or on its way. */
  const Ownership: seq<string> := [
    "定了", "买了", "买了只", "领养了", "马上要带回", "是只", "养了",
    "接回来了", "带回家了", "已经有了", "家里有只", "养的是"
  ]

  /** Trigger verbs saying the choice has been made. */
  const Decision: seq<string> := [
    "确定买", "选好了", "决定养", "最终选了", "就是", "确定是",
    "选定了", "定下来了", "准备养", "打算养"
  ]

  /** Phrases of someone still asking or weighing options. */
  const Consulting: seq<string> := [
    "好养吗", "怎么样", "考虑", "纠结", "想养", "推荐", "合适吗",
    "如何", "还是", "或者", "哪个好", "选哪个", "建议"
  ]

  /** Negations. */
  const Negation: seq<string> := [
    "不是", "不买", "没有", "不要", "不养", "不考虑", "不打算"
  ]

  /** Every veto phrase: consulting phrases, then negations. */
  const Negatives: seq<string> := Consulting + Negation

  /** Every trigger verb: ownership, then decision. */
  const Triggers: seq<string> := Ownership + Decision

  /** The wider trigger set the companion-hours field accepts. */
  const CompanionContext: seq<string> := ["每天", "一天", "工作日", "周末", "在家", "陪伴"] + Triggers

  /** `/幼犬|幼年|小狗|刚出生/` */
  const JuvenileWords: seq<string> := ["幼犬", "幼年", "小狗", "刚出生"]

  /** `/成犬|成年|大狗/` */
  const AdultWords: seq<string> := ["成犬", "成年", "大狗"]

  /** `/全天|整天|一整天|24小?时|一直在家/`, with `24小?时` spelled out as its two words. */
  const AllDayWords: seq<string> := ["全天", "整天", "一整天", "24小时", "24时", "一直在家"]

  /** `/大部分|基本在家|经常在家|多数时间/` */
  const MostlyHomeWords: seq<string> := ["大部分", "基本在家", "经常在家", "多数时间"]

  /** `/上班族|朝九晚五|白天上班|工作日上班/` */
  const OfficeWorkerWords: seq<string> := ["上班族", "朝九晚五", "白天上班", "工作日上班"]
}
