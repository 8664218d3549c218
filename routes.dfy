/** The talent and employer `PUT /:id` routes, which run the update handlers
    without `protect`, and what they let a caller do to the admin gate. */
module Routes {
  import opened Js
  import opened Store
  import opened Crypto
  import opened Auth
  import AccountService
  import TalentController

  /** The body that asks for the role "admin". */
  const AdminRoleBody: Doc := map["role" := Str("admin")]

  /** Updating the first document with an id keeps it the first one with
      that id, so a lookup by id finds the updated document. */
  lemma FindByIdAfterUpdate(docs: seq<Doc>, id: string, d: Doc)
    requires FindIndex(docs, "_id", Str(id)).Some? && IdOf(d) == Str(id)
    ensures var k := FindIndex(docs, "_id", Str(id)).value;
      FindById(docs[k := d], id) == Some(d)
  {
    var k := FindIndex(docs, "_id", Str(id)).value;
    var after := docs[k := d];
    assert Get(after[k], "_id") == Str(id);
    assert forall j :: 0 <= j < k ==> after[j] == docs[j];
    assert FindIndex(after, "_id", Str(id)) == Some(k);
  }

  /** As written: `PUT /api/talents/:id` with the body `{"role": "admin"}`
      (no `protect`, and `findByIdAndUpdate` runs no enum validator) stores
      the role "admin" on the talent, which then passes `authorize("admin")`
      on the admin routes. The new collection is the one
      `TalentController.UpdateTalent` leaves behind. */
  lemma TalentSelfPromotion(talents: seq<Doc>, employers: seq<Doc>, admins: seq<Doc>, id: string,
                            parse: string -> Option<Json>, kit: Kit, now: int)
    requires FindIndex(talents, "_id", Str(id)).Some?
    ensures var p := TalentController.PreparedBody(AdminRoleBody, None, parse);
      AccountService.HashPassword(kit, p).Ok?
    ensures var p := TalentController.PreparedBody(AdminRoleBody, None, parse);
      var k := FindIndex(talents, "_id", Str(id)).value;
      var after := talents[k := ApplyUpdate(talents[k], AccountService.HashPassword(kit, p).value, now)];
      Authorize(["admin"], Attached(after, employers, admins, id)).Next?
  {
    var p := TalentController.PreparedBody(AdminRoleBody, None, parse);
    RoleSurvivesPreparation(parse);
    var k := FindIndex(talents, "_id", Str(id)).value;
    var u := ApplyUpdate(talents[k], AccountService.HashPassword(kit, p).value, now);
    assert u["role"] == Str("admin");
    FindByIdAfterUpdate(talents, id, u);
    AdminGateAdmitsStoredAdminRole(talents[k := u], employers, admins, id);
  }

  /** `updateTalent`'s preparation of the body passes the role through, and
      the body carries no password to hash. */
  lemma RoleSurvivesPreparation(parse: string -> Option<Json>)
    ensures var p := TalentController.PreparedBody(AdminRoleBody, None, parse);
      "role" in p && p["role"] == Str("admin") && !Truthy(Get(p, "password"))
  {
    var b := AdminRoleBody;
    TalentController.NormalizeEffects(b, parse, "role");
    TalentController.NormalizeEffects(b, parse, "password");
    var n := TalentController.NormalizeKeys(b, parse, TalentController.JsonFields);
    TalentController.CleanedBodyEffects(n, "role");
    TalentController.CleanedBodyEffects(n, "password");
  }

  /** As written: `PUT /api/employers/:id` passes the body to the update as
      is, so `{"role": "admin"}` makes an employer (whose id no talent has)
      pass `authorize("admin")` too. */
  lemma EmployerSelfPromotion(talents: seq<Doc>, employers: seq<Doc>, admins: seq<Doc>, id: string, kit: Kit, now: int)
    requires FindById(talents, id).None? && FindIndex(employers, "_id", Str(id)).Some?
    ensures AccountService.HashPassword(kit, AdminRoleBody) == Ok(AdminRoleBody)
    ensures var k := FindIndex(employers, "_id", Str(id)).value;
      var after := employers[k := ApplyUpdate(employers[k], AdminRoleBody, now)];
      Authorize(["admin"], Attached(talents, after, admins, id)).Next?
  {
    var k := FindIndex(employers, "_id", Str(id)).value;
    var u := ApplyUpdate(employers[k], AdminRoleBody, now);
    assert u["role"] == Str("admin");
    FindByIdAfterUpdate(employers, id, u);
    AdminGateAdmitsStoredAdminRole(talents, employers[k := u], admins, id);
  }

  /** The update the role enum evidently intends: a profile update never
      sets the role. */
  function WithoutRole(updates: Doc): (r: Doc)
    ensures "role" !in r
    ensures forall k :: k in updates && k != "role" ==> k in r && r[k] == updates[k]
    ensures r.Keys <= updates.Keys
  {
    updates - {"role"}
  }

  /** Under the corrected update the stored role does not change, so a
      collection in which no document has the role "admin" keeps it so. */
  lemma CorrectedUpdateKeepsAdminsOut(docs: seq<Doc>, id: string, updates: Doc, kit: Kit, now: int)
    requires NoAdminRole(docs) && FindIndex(docs, "_id", Str(id)).Some?
    requires AccountService.HashPassword(kit, WithoutRole(updates)).Ok?
    ensures var k := FindIndex(docs, "_id", Str(id)).value;
      var u := ApplyUpdate(docs[k], AccountService.HashPassword(kit, WithoutRole(updates)).value, now);
      Get(u, "role") == Get(docs[k], "role") && NoAdminRole(docs[k := u])
  {
    var k := FindIndex(docs, "_id", Str(id)).value;
    var w := WithoutRole(updates);
    var h := AccountService.HashPassword(kit, w).value;
    assert "role" !in h;
    var u := ApplyUpdate(docs[k], h, now);
    assert Get(u, "role") == Get(docs[k], "role");
    var after := docs[k := u];
    forall d | d in after ensures Get(d, "role") != Str("admin") {
      var j :| 0 <= j < |after| && after[j] == d;
      if j != k {
        assert d == docs[j];
      }
    }
  }

  /** With the corrected update, a talent's request for the role "admin"
      leaves the admin routes closed to it, as before the update. */
  lemma CorrectedTalentStaysOut(talents: seq<Doc>, employers: seq<Doc>, admins: seq<Doc>, id: string,
                                parse: string -> Option<Json>, kit: Kit, now: int)
    requires NoAdminRole(talents) && FindIndex(talents, "_id", Str(id)).Some?
    requires AccountService.HashPassword(kit, WithoutRole(TalentController.PreparedBody(AdminRoleBody, None, parse))).Ok?
    ensures var h := AccountService.HashPassword(kit, WithoutRole(TalentController.PreparedBody(AdminRoleBody, None, parse))).value;
      var k := FindIndex(talents, "_id", Str(id)).value;
      var after := talents[k := ApplyUpdate(talents[k], h, now)];
      !Authorize(["admin"], Attached(after, employers, admins, id)).Next?
  {
    var p := TalentController.PreparedBody(AdminRoleBody, None, parse);
    var h := AccountService.HashPassword(kit, WithoutRole(p)).value;
    var k := FindIndex(talents, "_id", Str(id)).value;
    var u := ApplyUpdate(talents[k], h, now);
    CorrectedUpdateKeepsAdminsOut(talents, id, p, kit, now);
    FindByIdAfterUpdate(talents, id, u);
    AdminGateAdmitsStoredAdminRole(talents[k := u], employers, admins, id);
  }
}
