/**
  src/model/Band: a Band is a User with a description and an approval flag.
  The subclass is modelled by composition: `base` holds the inherited User
  fields and the inherited getters and setters act on it.
 */
module BandModel {
  import opened Errors
  import opened UserModel

  /** The object literal `toBandModel` reads; `isApproved` may be absent. */
  datatype BandFields = BandFields(
    id: string, name: string, nickname: string, email: string, password: string,
    role: UserRole, description: string, isApproved: Option<bool>)

  /** `MusicGenre`: `{ id, name? }`. */
  datatype MusicGenre = MusicGenre(id: string, name: Option<string>)

  class Band {
    const base: User
    var description: string
    var isApproved: bool

    /** `isApproved` defaults to false, as in the source's constructor. */
    constructor (id: string, name: string, nickname: string, email: string, password: string,
                 role: UserRole, description: string, isApproved: bool := false)
      ensures fresh(base)
      ensures base.id == id && base.name == name && base.nickname == nickname
      ensures base.email == email && base.password == password && base.role == role
      ensures this.description == description && this.isApproved == isApproved
    {
      base := new User(id, name, nickname, email, password, role);
      this.description := description;
      this.isApproved := isApproved;
    }

    /**
      `toBandModel`: a new Band holding all eight fields; an absent `isApproved`
      takes the constructor's default, false.
     */
    static method ToBandModel(band: BandFields) returns (b: Band)
      ensures fresh(b) && fresh(b.base)
      ensures b.base.id == band.id && b.base.name == band.name && b.base.nickname == band.nickname
      ensures b.base.email == band.email && b.base.password == band.password && b.base.role == band.role
      ensures b.description == band.description
      ensures b.isApproved == (band.isApproved == Some(true))
    {
      match band.isApproved
      case Some(approved) =>
        b := new Band(band.id, band.name, band.nickname, band.email, band.password, band.role,
                      band.description, approved);
      case None =>
        b := new Band(band.id, band.name, band.nickname, band.email, band.password, band.role,
                      band.description);
    }

    method SetDescription(description: string)
      modifies this`description
      ensures this.description == description
    {
      this.description := description;
    }

    method SetIsApproved(isApproved: bool)
      modifies this`isApproved
      ensures this.isApproved == isApproved
    {
      this.isApproved := isApproved;
    }
  }
}
