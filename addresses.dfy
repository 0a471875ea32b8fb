/** The contact addresses of the site (backend/core/addresses/models.py): social-media links with their icon,
    phone numbers with a primary and a WhatsApp flag, e-mail addresses with a primary flag, and physical
    addresses with a contact-form flag. Each flag may be set on at most one row of its table: saving a row
    with the flag clears it on every other row, and saving an inactive row clears its flags first.
    A table is a map from primary keys to rows; a row being added is saved under the key it receives. */
module Addresses {
  import Text

  type Pk = nat

  /** `Model.objects.filter(flag=True).exclude(pk=pk).update(flag=False)`: every other row that has the flag
      loses it; `unflag` clears the flag and nothing else. */
  function ClearOthers<R>(rows: map<Pk, R>, pk: Pk, flag: R -> bool, unflag: R -> R): map<Pk, R>
  {
    map k | k in rows :: if k != pk && flag(rows[k]) then unflag(rows[k]) else rows[k]
  }

  /** No two rows carry the flag. */
  predicate AtMostOne<R>(rows: map<Pk, R>, flag: R -> bool)
  {
    forall a, b :: a in rows && b in rows && flag(rows[a]) && flag(rows[b]) ==> a == b
  }

  /** After clearing, no row but `pk` carries the flag, every row keeps its key, and a row that did not
      carry the flag is untouched. */
  lemma ClearOthersLeavesOnlyPk<R>(rows: map<Pk, R>, pk: Pk, flag: R -> bool, unflag: R -> R)
    requires forall x :: !flag(unflag(x))
    ensures ClearOthers(rows, pk, flag, unflag).Keys == rows.Keys
    ensures forall k :: k in rows && k != pk ==> !flag(ClearOthers(rows, pk, flag, unflag)[k])
    ensures forall k :: k in rows && (k == pk || !flag(rows[k])) ==> ClearOthers(rows, pk, flag, unflag)[k] == rows[k]
  {
  }

  // ---------------------------------------------------------------------------------------------------
  // Social-media links.

  /** A `SocialMediaAddress` row. */
  datatype SocialRow = SocialRow(name: string, icon: string, url: string, isActive: bool)

  /** The platform names the `name` field accepts. */
  const SOCIAL_NAMES: seq<string> := ["facebook", "twitter", "instagram", "linkedin", "youtube", "tiktok",
    "pinterest", "snapchat", "discord", "telegram", "github", "reddit", "twitch"]

  /** `ICON_MAPPING`: the Bootstrap icon class of each platform. */
  const ICON_MAPPING: map<string, string> := map[
    "facebook" := "bi bi-facebook", "twitter" := "bi bi-twitter-x", "instagram" := "bi bi-instagram",
    "linkedin" := "bi bi-linkedin", "youtube" := "bi bi-youtube", "tiktok" := "bi bi-tiktok",
    "pinterest" := "bi bi-pinterest", "snapchat" := "bi bi-snapchat", "discord" := "bi bi-discord",
    "telegram" := "bi bi-telegram", "github" := "bi bi-github", "reddit" := "bi bi-reddit",
    "twitch" := "bi bi-twitch"]

  /** `SocialMediaAddress.save`: a mapped platform name sets the icon; any other name leaves it as it was. */
  function SocialSaved(row: SocialRow): SocialRow
  {
    if row.name in ICON_MAPPING then row.(icon := ICON_MAPPING[row.name]) else row
  }

  /** `icon_html` */
  function IconHtml(icon: string): string
  {
    if icon != [] then "<i class=\"" + icon + "\"></i>" else ""
  }

  /** Every platform the `name` field accepts has an icon in the mapping, and every icon is non-empty. */
  lemma IconMappingCoversChoices()
    ensures forall i :: 0 <= i < |SOCIAL_NAMES| ==> SOCIAL_NAMES[i] in ICON_MAPPING
    ensures forall n :: n in ICON_MAPPING ==> |ICON_MAPPING[n]| > |"bi bi-"|
  {
  }

  /** A saved link of an accepted platform has a non-empty icon tag; a name outside the mapping keeps the
      icon it had; saving twice is saving once; and the tag is empty exactly when the icon is. */
  lemma SocialSaveRules(row: SocialRow)
    ensures row.name in SOCIAL_NAMES ==> IconHtml(SocialSaved(row).icon) != ""
    ensures row.name !in ICON_MAPPING ==> SocialSaved(row) == row
    ensures SocialSaved(SocialSaved(row)) == SocialSaved(row)
    ensures IconHtml(row.icon) == "" <==> row.icon == ""
  {
    if row.name in SOCIAL_NAMES {
      IconMappingCoversChoices();
      var i :| 0 <= i < |SOCIAL_NAMES| && SOCIAL_NAMES[i] == row.name;
      assert row.name in ICON_MAPPING;
    }
    if row.icon != [] {
      assert |IconHtml(row.icon)| > 0;
    }
  }

  /** The social-media table. */
  class SocialTable {
    var rows: map<Pk, SocialRow>

    constructor ()
      ensures rows == map[]
    {
      rows := map[];
    }

    method Save(pk: Pk, row: SocialRow)
      modifies this
      ensures rows == old(rows)[pk := SocialSaved(row)]
    {
      var r := row;
      if r.name in ICON_MAPPING {
        r := r.(icon := ICON_MAPPING[r.name]);
      }
      rows := rows[pk := r];
    }
  }

  // ---------------------------------------------------------------------------------------------------
  // Phone numbers.

  /** A `PhoneAddress` row; `number` is the number's string form. */
  datatype PhoneRow = PhoneRow(number: string, isActive: bool, isPrimary: bool, useForWhatsapp: bool)

  function PhonePrimary(p: PhoneRow): bool { p.isPrimary }
  function PhoneUnprimary(p: PhoneRow): PhoneRow { p.(isPrimary := false) }
  function PhoneWhatsapp(p: PhoneRow): bool { p.useForWhatsapp }
  function PhoneUnwhatsapp(p: PhoneRow): PhoneRow { p.(useForWhatsapp := false) }

  /** An inactive number keeps neither flag. */
  function PhoneNormalised(row: PhoneRow): (r: PhoneRow)
  {
    if !row.isActive then row.(isPrimary := false, useForWhatsapp := false) else row
  }

  /** `PhoneAddress.save`: the row is normalised, the other primary number (if the row is primary) and the
      other WhatsApp number (if the row is for WhatsApp) lose their flags, and the row is stored. */
  function PhoneSaved(rows: map<Pk, PhoneRow>, pk: Pk, row: PhoneRow): map<Pk, PhoneRow>
  {
    var r := PhoneNormalised(row);
    var afterPrimary := if r.isPrimary then ClearOthers(rows, pk, PhonePrimary, PhoneUnprimary) else rows;
    var afterWhatsapp :=
      if r.useForWhatsapp then ClearOthers(afterPrimary, pk, PhoneWhatsapp, PhoneUnwhatsapp)
      else afterPrimary;
    afterWhatsapp[pk := r]
  }

  /** The rules of the phone table: at most one primary number, at most one WhatsApp number, and no flag on
      an inactive number. */
  predicate PhoneRules(rows: map<Pk, PhoneRow>)
  {
    AtMostOne(rows, PhonePrimary) && AtMostOne(rows, PhoneWhatsapp)
    && forall k :: k in rows && !rows[k].isActive ==> !rows[k].isPrimary && !rows[k].useForWhatsapp
  }

  /** Clearing the other primary numbers keeps the rules, leaves no primary number but `pk`, and touches
      nothing but the primary flag. */
  lemma ClearPrimaryPhones(rows: map<Pk, PhoneRow>, pk: Pk)
    requires PhoneRules(rows)
    ensures var a := ClearOthers(rows, pk, PhonePrimary, PhoneUnprimary);
      PhoneRules(a) && a.Keys == rows.Keys
      && (forall k :: k in a && k != pk ==> !a[k].isPrimary)
      && forall k :: k in rows ==> a[k].(isPrimary := rows[k].isPrimary) == rows[k] && (a[k].isPrimary ==> rows[k].isPrimary)
  {
    var a := ClearOthers(rows, pk, PhonePrimary, PhoneUnprimary);
    ClearOthersLeavesOnlyPk(rows, pk, PhonePrimary, PhoneUnprimary);
    forall k | k in rows
      ensures a[k] == rows[k] || a[k] == rows[k].(isPrimary := false)
    {
    }
  }

  /** Clearing the other WhatsApp numbers keeps the rules, leaves no WhatsApp number but `pk`, and touches
      nothing but the WhatsApp flag. */
  lemma ClearWhatsappPhones(rows: map<Pk, PhoneRow>, pk: Pk)
    requires PhoneRules(rows)
    ensures var a := ClearOthers(rows, pk, PhoneWhatsapp, PhoneUnwhatsapp);
      PhoneRules(a) && a.Keys == rows.Keys
      && (forall k :: k in a && k != pk ==> !a[k].useForWhatsapp)
      && forall k :: k in rows ==> a[k].(useForWhatsapp := rows[k].useForWhatsapp) == rows[k] && (a[k].useForWhatsapp ==> rows[k].useForWhatsapp)
  {
    var a := ClearOthers(rows, pk, PhoneWhatsapp, PhoneUnwhatsapp);
    ClearOthersLeavesOnlyPk(rows, pk, PhoneWhatsapp, PhoneUnwhatsapp);
    forall k | k in rows
      ensures a[k] == rows[k] || a[k] == rows[k].(useForWhatsapp := false)
    {
    }
  }

  /** Storing a normalised row keeps the rules when no other row holds a flag the row holds. */
  lemma StorePhoneKeepsRules(rows: map<Pk, PhoneRow>, pk: Pk, n: PhoneRow)
    requires PhoneRules(rows)
    requires !n.isActive ==> !n.isPrimary && !n.useForWhatsapp
    requires n.isPrimary ==> forall k :: k in rows && k != pk ==> !rows[k].isPrimary
    requires n.useForWhatsapp ==> forall k :: k in rows && k != pk ==> !rows[k].useForWhatsapp
    ensures PhoneRules(rows[pk := n])
  {
    var r := rows[pk := n];
    forall a, b | a in r && b in r && PhonePrimary(r[a]) && PhonePrimary(r[b])
      ensures a == b
    {
      if a != pk && b != pk {
        assert PhonePrimary(rows[a]) && PhonePrimary(rows[b]);
      }
    }
    forall a, b | a in r && b in r && PhoneWhatsapp(r[a]) && PhoneWhatsapp(r[b])
      ensures a == b
    {
      if a != pk && b != pk {
        assert PhoneWhatsapp(rows[a]) && PhoneWhatsapp(rows[b]);
      }
    }
  }

  /** Saving a phone keeps the rules; the saved row is stored normalised; after saving a primary (WhatsApp)
      number no other number is primary (WhatsApp); and the other rows keep their number and activity, only
      ever losing flags. */
  lemma PhoneSaveKeepsRules(rows: map<Pk, PhoneRow>, pk: Pk, row: PhoneRow)
    requires PhoneRules(rows)
    ensures var r := PhoneSaved(rows, pk, row);
      PhoneRules(r)
      && r.Keys == rows.Keys + {pk}
      && r[pk] == PhoneNormalised(row)
      && (!row.isActive ==> !r[pk].isPrimary && !r[pk].useForWhatsapp)
      && (r[pk].isPrimary ==> forall k :: k in r && k != pk ==> !r[k].isPrimary)
      && (r[pk].useForWhatsapp ==> forall k :: k in r && k != pk ==> !r[k].useForWhatsapp)
      && forall k :: k in rows && k != pk ==>
           r[k].number == rows[k].number && r[k].isActive == rows[k].isActive
           && (r[k].isPrimary ==> rows[k].isPrimary) && (r[k].useForWhatsapp ==> rows[k].useForWhatsapp)
  {
    PhoneSaveRules(rows, pk, row);
    PhoneSaveFlags(rows, pk, row);
    PhoneSaveOthers(rows, pk, row);
  }

  /** Saving a phone keeps the table's rules. */
  lemma PhoneSaveRules(rows: map<Pk, PhoneRow>, pk: Pk, row: PhoneRow)
    requires PhoneRules(rows)
    ensures PhoneRules(PhoneSaved(rows, pk, row))
  {
    var n := PhoneNormalised(row);
    var a := if n.isPrimary then ClearOthers(rows, pk, PhonePrimary, PhoneUnprimary) else rows;
    if n.isPrimary {
      ClearPrimaryPhones(rows, pk);
    }
    var b := if n.useForWhatsapp then ClearOthers(a, pk, PhoneWhatsapp, PhoneUnwhatsapp) else a;
    if n.useForWhatsapp {
      ClearWhatsappPhones(a, pk);
    }
    StorePhoneKeepsRules(b, pk, n);
    assert b[pk := n] == PhoneSaved(rows, pk, row);
  }

  /** The saved row is stored normalised, and a flag it holds no other row holds. */
  lemma PhoneSaveFlags(rows: map<Pk, PhoneRow>, pk: Pk, row: PhoneRow)
    ensures var r := PhoneSaved(rows, pk, row);
      r.Keys == rows.Keys + {pk}
      && r[pk] == PhoneNormalised(row)
      && (r[pk].isPrimary ==> forall k :: k in r && k != pk ==> !r[k].isPrimary)
      && (r[pk].useForWhatsapp ==> forall k :: k in r && k != pk ==> !r[k].useForWhatsapp)
  {
    var n := PhoneNormalised(row);
    var a := if n.isPrimary then ClearOthers(rows, pk, PhonePrimary, PhoneUnprimary) else rows;
    var b := if n.useForWhatsapp then ClearOthers(a, pk, PhoneWhatsapp, PhoneUnwhatsapp) else a;
    ClearOthersLeavesOnlyPk(rows, pk, PhonePrimary, PhoneUnprimary);
    ClearOthersLeavesOnlyPk(a, pk, PhoneWhatsapp, PhoneUnwhatsapp);
    var r := PhoneSaved(rows, pk, row);
    assert r == b[pk := n];
    if n.isPrimary {
      forall k | k in r && k != pk
        ensures !r[k].isPrimary
      {
        assert !a[k].isPrimary;
        assert b[k] == a[k] || b[k] == a[k].(useForWhatsapp := false);
      }
    }
  }

  /** Saving a phone leaves the other rows' number and activity alone, and they can only lose flags. */
  lemma PhoneSaveOthers(rows: map<Pk, PhoneRow>, pk: Pk, row: PhoneRow)
    ensures var r := PhoneSaved(rows, pk, row);
      forall k :: k in rows && k != pk ==>
        k in r && r[k].number == rows[k].number && r[k].isActive == rows[k].isActive
        && (r[k].isPrimary ==> rows[k].isPrimary) && (r[k].useForWhatsapp ==> rows[k].useForWhatsapp)
  {
    var n := PhoneNormalised(row);
    var a := if n.isPrimary then ClearOthers(rows, pk, PhonePrimary, PhoneUnprimary) else rows;
    var b := if n.useForWhatsapp then ClearOthers(a, pk, PhoneWhatsapp, PhoneUnwhatsapp) else a;
    var r := PhoneSaved(rows, pk, row);
    assert r == b[pk := n];
    forall k | k in rows && k != pk
      ensures k in r && r[k].number == rows[k].number && r[k].isActive == rows[k].isActive
        && (r[k].isPrimary ==> rows[k].isPrimary) && (r[k].useForWhatsapp ==> rows[k].useForWhatsapp)
    {
      assert a[k] == rows[k] || a[k] == rows[k].(isPrimary := false);
      assert b[k] == a[k] || b[k] == a[k].(useForWhatsapp := false);
    }
  }

  /** The phone table. */
  class PhoneTable {
    var rows: map<Pk, PhoneRow>

    constructor ()
      ensures rows == map[] && PhoneRules(rows)
    {
      rows := map[];
    }

    method Save(pk: Pk, row: PhoneRow)
      requires PhoneRules(rows)
      modifies this
      ensures rows == PhoneSaved(old(rows), pk, row)
      ensures PhoneRules(rows)
    {
      PhoneSaveKeepsRules(rows, pk, row);
      var r := row;
      if !r.isActive {
        r := r.(isPrimary := false, useForWhatsapp := false);
      }
      if r.isPrimary {
        rows := ClearOthers(rows, pk, PhonePrimary, PhoneUnprimary);
      }
      if r.useForWhatsapp {
        rows := ClearOthers(rows, pk, PhoneWhatsapp, PhoneUnwhatsapp);
      }
      rows := rows[pk := r];
    }
  }

  const WHATSAPP_PREFIX := "https://wa.me/"

  /** `whatsapp_link`: empty unless the number is for WhatsApp and present; otherwise the wa.me link of the
      number with '+' and ' ' removed. */
  function WhatsappLink(useForWhatsapp: bool, number: string): string
  {
    if useForWhatsapp && number != [] then WHATSAPP_PREFIX + Text.RemoveChars(number, {'+', ' '}) else ""
  }

  /** The link is present exactly for a WhatsApp number; after the prefix it holds no '+' or space; and a
      number written without them appears in the link as it is. */
  lemma WhatsappLinkShape(useForWhatsapp: bool, number: string)
    ensures WhatsappLink(useForWhatsapp, number) != "" <==> useForWhatsapp && number != ""
    ensures WhatsappLink(useForWhatsapp, number) != "" ==>
      Text.IsPrefix(WHATSAPP_PREFIX, WhatsappLink(useForWhatsapp, number))
      && forall i :: |WHATSAPP_PREFIX| <= i < |WhatsappLink(useForWhatsapp, number)| ==>
           WhatsappLink(useForWhatsapp, number)[i] != '+' && WhatsappLink(useForWhatsapp, number)[i] != ' '
    ensures useForWhatsapp && number != "" && (forall i :: 0 <= i < |number| ==> number[i] != '+' && number[i] != ' ') ==>
      WhatsappLink(useForWhatsapp, number) == WHATSAPP_PREFIX + number
  {
    if useForWhatsapp && number != [] {
      var link := WhatsappLink(useForWhatsapp, number);
      var rest := Text.RemoveChars(number, {'+', ' '});
      assert link[..|WHATSAPP_PREFIX|] == WHATSAPP_PREFIX;
      assert forall i :: |WHATSAPP_PREFIX| <= i < |link| ==> link[i] == rest[i - |WHATSAPP_PREFIX|];
      if forall i :: 0 <= i < |number| ==> number[i] != '+' && number[i] != ' ' {
        Text.RemoveCharsKeepsOthers(number, {'+', ' '});
      }
    }
  }

  // ---------------------------------------------------------------------------------------------------
  // E-mail addresses.

  /** An `EmailAddress` row. */
  datatype EmailRow = EmailRow(email: string, isActive: bool, isPrimary: bool)

  function EmailPrimary(e: EmailRow): bool { e.isPrimary }
  function EmailUnprimary(e: EmailRow): EmailRow { e.(isPrimary := false) }

  /** `EmailAddress.save`: an inactive address is not primary; a primary one makes every other non-primary. */
  function EmailSaved(rows: map<Pk, EmailRow>, pk: Pk, row: EmailRow): map<Pk, EmailRow>
  {
    var r := if !row.isActive then row.(isPrimary := false) else row;
    (if r.isPrimary then ClearOthers(rows, pk, EmailPrimary, EmailUnprimary) else rows)[pk := r]
  }

  predicate EmailRules(rows: map<Pk, EmailRow>)
  {
    AtMostOne(rows, EmailPrimary) && forall k :: k in rows && !rows[k].isActive ==> !rows[k].isPrimary
  }

  /** Saving an e-mail address keeps the rules, never stores an inactive primary address, leaves the saved
      address as the only primary one when it is primary, and changes other rows only by clearing the flag. */
  lemma EmailSaveKeepsRules(rows: map<Pk, EmailRow>, pk: Pk, row: EmailRow)
    requires EmailRules(rows)
    ensures var r := EmailSaved(rows, pk, row);
      EmailRules(r)
      && r.Keys == rows.Keys + {pk}
      && r[pk].email == row.email && r[pk].isActive == row.isActive
      && (r[pk].isPrimary <==> row.isPrimary && row.isActive)
      && (r[pk].isPrimary ==> forall k :: k in r && k != pk ==> !r[k].isPrimary)
      && forall k :: k in rows && k != pk ==> r[k] == rows[k] || r[k] == rows[k].(isPrimary := false)
  {
    ClearOthersLeavesOnlyPk(rows, pk, EmailPrimary, EmailUnprimary);
    EmailSaveRules(rows, pk, row);
  }

  /** Saving an email address keeps the table's rules. */
  lemma EmailSaveRules(rows: map<Pk, EmailRow>, pk: Pk, row: EmailRow)
    requires EmailRules(rows)
    ensures EmailRules(EmailSaved(rows, pk, row))
  {
    var n := if !row.isActive then row.(isPrimary := false) else row;
    var a := if n.isPrimary then ClearOthers(rows, pk, EmailPrimary, EmailUnprimary) else rows;
    ClearOthersLeavesOnlyPk(rows, pk, EmailPrimary, EmailUnprimary);
    var r := EmailSaved(rows, pk, row);
    assert r == a[pk := n];
    forall x, y | x in r && y in r && EmailPrimary(r[x]) && EmailPrimary(r[y])
      ensures x == y
    {
      if x != pk && y != pk {
        assert EmailPrimary(rows[x]) && EmailPrimary(rows[y]);
      }
    }
  }

  class EmailTable {
    var rows: map<Pk, EmailRow>

    constructor ()
      ensures rows == map[] && EmailRules(rows)
    {
      rows := map[];
    }

    method Save(pk: Pk, row: EmailRow)
      requires EmailRules(rows)
      modifies this
      ensures rows == EmailSaved(old(rows), pk, row)
      ensures EmailRules(rows)
    {
      EmailSaveKeepsRules(rows, pk, row);
      var r := row;
      if !r.isActive {
        r := r.(isPrimary := false);
      }
      if r.isPrimary {
        rows := ClearOthers(rows, pk, EmailPrimary, EmailUnprimary);
      }
      rows := rows[pk := r];
    }
  }

  // ---------------------------------------------------------------------------------------------------
  // Physical addresses.

  /** A `PhysicalAddress` row (the map embed URL and building are not used by the rules below). */
  datatype PhysicalRow = PhysicalRow(addressLabel: string, streetAddress: string, city: string, stateProvince: string,
                                     postalCode: string, country: string, isActive: bool, useInContactForm: bool)

  function ContactForm(a: PhysicalRow): bool { a.useInContactForm }
  function NoContactForm(a: PhysicalRow): PhysicalRow { a.(useInContactForm := false) }

  /** `PhysicalAddress.save`: an inactive address is not used in the contact form; one that is makes every
      other address unused. */
  function PhysicalSaved(rows: map<Pk, PhysicalRow>, pk: Pk, row: PhysicalRow): map<Pk, PhysicalRow>
  {
    var r := if !row.isActive then row.(useInContactForm := false) else row;
    (if r.useInContactForm then ClearOthers(rows, pk, ContactForm, NoContactForm) else rows)[pk := r]
  }

  predicate PhysicalRules(rows: map<Pk, PhysicalRow>)
  {
    AtMostOne(rows, ContactForm) && forall k :: k in rows && !rows[k].isActive ==> !rows[k].useInContactForm
  }

  /** Saving a physical address keeps the rules, never stores an inactive contact-form address, leaves the
      saved address as the only contact-form address when it is one, and changes other rows only by clearing
      the flag. */
  lemma PhysicalSaveKeepsRules(rows: map<Pk, PhysicalRow>, pk: Pk, row: PhysicalRow)
    requires PhysicalRules(rows)
    ensures var r := PhysicalSaved(rows, pk, row);
      PhysicalRules(r)
      && r.Keys == rows.Keys + {pk}
      && (r[pk].useInContactForm <==> row.useInContactForm && row.isActive)
      && r[pk].(useInContactForm := row.useInContactForm) == row
      && (r[pk].useInContactForm ==> forall k :: k in r && k != pk ==> !r[k].useInContactForm)
      && forall k :: k in rows && k != pk ==> r[k] == rows[k] || r[k] == rows[k].(useInContactForm := false)
  {
    ClearOthersLeavesOnlyPk(rows, pk, ContactForm, NoContactForm);
    PhysicalSaveRules(rows, pk, row);
  }

  /** Saving a physical address keeps the table's rules. */
  lemma PhysicalSaveRules(rows: map<Pk, PhysicalRow>, pk: Pk, row: PhysicalRow)
    requires PhysicalRules(rows)
    ensures PhysicalRules(PhysicalSaved(rows, pk, row))
  {
    var n := if !row.isActive then row.(useInContactForm := false) else row;
    var a := if n.useInContactForm then ClearOthers(rows, pk, ContactForm, NoContactForm) else rows;
    ClearOthersLeavesOnlyPk(rows, pk, ContactForm, NoContactForm);
    var r := PhysicalSaved(rows, pk, row);
    assert r == a[pk := n];
    forall x, y | x in r && y in r && ContactForm(r[x]) && ContactForm(r[y])
      ensures x == y
    {
      if x != pk && y != pk {
        assert ContactForm(rows[x]) && ContactForm(rows[y]);
      }
    }
  }

  class PhysicalTable {
    var rows: map<Pk, PhysicalRow>

    constructor ()
      ensures rows == map[] && PhysicalRules(rows)
    {
      rows := map[];
    }

    method Save(pk: Pk, row: PhysicalRow)
      requires PhysicalRules(rows)
      modifies this
      ensures rows == PhysicalSaved(old(rows), pk, row)
      ensures PhysicalRules(rows)
    {
      PhysicalSaveKeepsRules(rows, pk, row);
      var r := row;
      if !r.isActive {
        r := r.(useInContactForm := false);
      }
      if r.useInContactForm {
        rows := ClearOthers(rows, pk, ContactForm, NoContactForm);
      }
      rows := rows[pk := r];
    }
  }

  /** `full_address`: street and city, then state/province and postal code when non-empty, then country,
      joined with ", ". */
  function FullAddress(a: PhysicalRow): string
  {
    var parts := [a.streetAddress, a.city]
      + (if a.stateProvince != "" then [a.stateProvince] else [])
      + (if a.postalCode != "" then [a.postalCode] else [])
      + [a.country];
    Text.Join(parts, ", ")
  }

  /** `short_address` */
  function ShortAddress(a: PhysicalRow): string
  {
    a.city + ", " + a.country
  }

  /** The full address spelled out part by part; without state and postal code it is the street followed by
      the short address. Street, city and country are always present, even when empty. */
  lemma FullAddressParts(a: PhysicalRow)
    ensures FullAddress(a) == a.streetAddress + ", " + a.city
      + (if a.stateProvince != "" then ", " + a.stateProvince else "")
      + (if a.postalCode != "" then ", " + a.postalCode else "")
      + ", " + a.country
    ensures a.stateProvince == "" && a.postalCode == "" ==> FullAddress(a) == a.streetAddress + ", " + ShortAddress(a)
  {
    var s, c, st, p, co := a.streetAddress, a.city, a.stateProvince, a.postalCode, a.country;
    if st != "" && p != "" {
      FullAddressFive(s, c, st, p, co);
      assert [s, c] + [st] + [p] + [co] == [s, c, st, p, co];
    } else if st != "" {
      FullAddressFour(s, c, st, co);
      assert [s, c] + [st] + [] + [co] == [s, c, st, co];
    } else if p != "" {
      FullAddressFour(s, c, p, co);
      assert [s, c] + [] + [p] + [co] == [s, c, p, co];
    } else {
      assert Text.Join([co], ", ") == co;
      assert Text.Join([c, co], ", ") == c + ", " + co;
      assert [s, c] + [] + [] + [co] == [s, c, co];
    }
  }

  lemma FullAddressFive(s: string, c: string, st: string, p: string, co: string)
    ensures Text.Join([s, c, st, p, co], ", ") == s + ", " + c + ", " + st + ", " + p + ", " + co
  {
    var sep := ", ";
    assert Text.Join([co], sep) == co;
    assert Text.Join([p, co], sep) == p + sep + co;
    assert Text.Join([st, p, co], sep) == st + sep + (p + sep + co);
    assert Text.Join([c, st, p, co], sep) == c + sep + (st + sep + (p + sep + co));
  }

  lemma FullAddressFour(s: string, c: string, x: string, co: string)
    ensures Text.Join([s, c, x, co], ", ") == s + ", " + c + ", " + x + ", " + co
  {
    var sep := ", ";
    assert Text.Join([co], sep) == co;
    assert Text.Join([x, co], sep) == x + sep + co;
    assert Text.Join([c, x, co], sep) == c + sep + (x + sep + co);
  }
}
