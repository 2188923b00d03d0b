/** The three prompt decks the facilitator draws from. Only their
    membership matters to the engine: a draw always yields one of these. */
module Decks {

  const CustomerCards: seq<string> := [
    "นักศึกษาที่งบน้อย",
    "คนทำงานรีบตอนเช้า",
    "ผู้ประกอบการรายย่อย",
    "คนรักสุขภาพแต่ไม่มีเวลา",
    "คนเมืองที่ไม่ชอบรอคิว",
    "นักท่องเที่ยวมือใหม่"
  ]

  const PainCards: seq<string> := [
    "เสียเวลา/ต้องรอนาน",
    "ราคาแพงเกินคุ้ม",
    "หาข้อมูลยาก/ตัดสินใจยาก",
    "คุณภาพไม่สม่ำเสมอ",
    "ขั้นตอนยุ่งยาก",
    "ไม่มั่นใจ/กลัวพลาด"
  ]

  const EventCards: seq<string> := [
    "คู่แข่งตัดราคา 30%",
    "งบการตลาดหายไปครึ่ง",
    "รีวิว 1 ดาวไวรัลในโซเชียล",
    "เทรนด์ใหม่มาแรงใน TikTok",
    "แพลตฟอร์มเปลี่ยนนโยบายโฆษณา"
  ]

  /** Every card of every deck is a non-empty prompt. */
  lemma CardsNonEmpty()
    ensures |CustomerCards| == 6 && |PainCards| == 6 && |EventCards| == 5
    ensures forall k :: 0 <= k < |CustomerCards| ==> CustomerCards[k] != ""
    ensures forall k :: 0 <= k < |PainCards| ==> PainCards[k] != ""
    ensures forall k :: 0 <= k < |EventCards| ==> EventCards[k] != ""
  {
  }
}
