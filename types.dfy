/**
  The record shapes the application passes around (the declarations of
  `src/utils/types.ts`), restricted to the fields the modelled logic reads.
*/
module Types {
  import opened Wrappers

  /** The signed-in user (`Profile` of `src/hooks/useAuth.tsx`): id and role; the other fields are not read. */
  datatype Profile = Profile(id: int, role: string)

  /** One entry of a select box: the submitted value and the label shown. */
  datatype PickOption = PickOption(value: string, option: string)

  /** A city (prefecture) of the map search: numeric id and display name. */
  datatype City = City(id: int, text: string)

  /** One region of the map search with its cities; image and styling fields are not modelled. */
  datatype MapInfo = MapInfo(id: string, text: string, cities: seq<City>)

  /**
    A feature of the job catalog served by `/features`: `kind` is the `type` field
    (1 section, 2 region, 3 selectable item); prices, slots and timestamps are not modelled.
  */
  datatype FeatureItem = FeatureItem(id: int, name: string, parentId: Option<int>, kind: int)

  /** A stored image: the upload directory and the file name. */
  datatype ImageDetail = ImageDetail(entityPath: string, imageName: string)

  /**
    An image form field, typed `File | string | null` in the source, or left unset.
    A `File` is opaque apart from its MIME type.
  */
  datatype Upload = File(mimeType: string) | Path(path: string) | NullUpload | UnsetUpload

  /**
    A recruiting criterion: its id, the employer field it is filled from
    (`calling_name`), its position (`display_order`), whether it is filled from the
    employer's record (`clinic_flg`, 0 or 1), and the body a job gives it
    (`JobInfosRecruitingCriteria.body`). Name and timestamps are not modelled.
  */
  datatype RecruitingCriteria = RecruitingCriteria(id: int, callingName: string, displayOrder: int,
                                                   clinicFlg: int, body: string)
}
